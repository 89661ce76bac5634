/**
 * The slice of the Algorand Virtual Machine that the Niftgen approval
 * programs rely on: uint64 arithmetic that aborts, the Itob/Btoi byte
 * encoding, program values and key/value stores, transactions and their
 * groups, the read-only view of other programs and assets, and the outcome
 * of one approval-program run (rejected, or approved with the inner
 * transactions it submitted).
 */
module Avm {

  datatype Option<T> = None | Some(value: T) {
    predicate IsFailure() { None? }
    function PropagateFailure<U>(): Option<U>
      requires None?
    {
      None
    }
    function Extract(): T
      requires Some?
    {
      value
    }
  }

  // ---------------------------------------------------------------- uint64

  const MaxUInt: nat := 0xFFFF_FFFF_FFFF_FFFF
  type U64 = n: nat | n <= MaxUInt

  /** `+` of the AVM: the program aborts when the sum does not fit in 64 bits. */
  function Add(a: U64, b: U64): Option<U64>
  {
    if a + b <= MaxUInt then Some(a + b) else None
  }

  /** `-` of the AVM: the program aborts on underflow. */
  function Minus(a: U64, b: U64): Option<U64>
  {
    if b <= a then Some(a - b) else None
  }

  /** `/` of the AVM: floor division, aborting on a zero divisor. */
  function Div(a: U64, b: U64): Option<U64>
  {
    if b == 0 then None else Some(a / b)
  }

  /** WideRatio([a, b], [c]): the exact floor of a*b/c, aborting when c is 0 or the quotient exceeds 64 bits. */
  function WideRatio(a: U64, b: U64, c: U64): Option<U64>
  {
    if c == 0 then None
    else
      var q := Product(a, b) / c;
      if q > MaxUInt then None else Some(q)
  }

  /** The 128-bit product WideRatio divides. */
  function Product(a: nat, b: nat): (p: nat)
    ensures p == a * b
  {
    a * b
  }

  // ---------------------------------------------------------------- bytes

  /** A byte string is a `string` whose characters are all below 256. */
  predicate IsBytes(s: string)
  {
    forall i :: 0 <= i < |s| ==> s[i] as int < 256
  }

  function Pow256(k: nat): (p: nat)
    ensures p > 0
  {
    if k == 0 then 1 else 256 * Pow256(k - 1)
  }

  /** The big-endian number a byte string denotes. */
  function BigEndian(s: string): nat
  {
    if s == [] then 0 else BigEndian(s[..|s| - 1]) * 256 + (s[|s| - 1] as int) % 256
  }

  /** The low `k` bytes of `n`, most significant first. */
  function ItobN(n: nat, k: nat): (s: string)
    ensures |s| == k && IsBytes(s)
  {
    if k == 0 then [] else ItobN(n / 256, k - 1) + [(n % 256) as char]
  }

  /** Itob: the 8-byte big-endian encoding of a uint64. */
  function Itob(n: U64): string
  {
    ItobN(n, 8)
  }

  /** Btoi: decoding of at most 8 bytes; longer inputs abort the program. */
  function Btoi(s: string): Option<U64>
  {
    if |s| <= 8 && IsBytes(s) then
      BigEndianBound(s);
      Pow256Eight(|s|);
      var n: U64 := BigEndian(s);
      Some(n)
    else None
  }

  lemma {:induction false} BigEndianBound(s: string)
    ensures BigEndian(s) < Pow256(|s|)
  {
    if s != [] {
      BigEndianBound(s[..|s| - 1]);
    }
    if |s| <= 8 {
      Pow256Eight(|s|);
    }
  }

  lemma {:induction false} Pow256Eight(k: nat)
    requires k <= 8
    ensures Pow256(k) <= MaxUInt + 1
    decreases 8 - k
  {
    if k < 8 {
      Pow256Eight(k + 1);
    }
  }

  /** Decoding the k-byte encoding of n gives back n modulo 256^k. */
  lemma {:induction false} BigEndianItobN(n: nat, k: nat)
    ensures BigEndian(ItobN(n, k)) == n % Pow256(k)
  {
    if k > 0 {
      var s, init := ItobN(n, k), ItobN(n / 256, k - 1);
      assert s == init + [(n % 256) as char];
      assert s[..|s| - 1] == init;
      assert (s[|s| - 1] as int) % 256 == n % 256;
      BigEndianItobN(n / 256, k - 1);
      assert BigEndian(s) == BigEndian(init) * 256 + n % 256;
      DivModStep(n, Pow256(k - 1));
    }
  }

  lemma DivModStep(n: nat, p: nat)
    requires p > 0
    ensures ((n / 256) % p) * 256 + n % 256 == n % (256 * p)
  {
    var q, r := n / 256, n % 256;
    var qq, qr := q / p, q % p;
    assert n == 256 * q + r;
    assert q == p * qq + qr;
    calc {
      n;
      256 * (p * qq + qr) + r;
      { MulAssoc(256, p, qq); }
      (256 * p) * qq + (256 * qr + r);
    }
    assert 256 * qr + r < 256 * p by {
      assert qr + 1 <= p;
      MulMono(256, qr + 1, p);
    }
    ModUnique(n, 256 * p, qq, 256 * qr + r);
  }

  lemma MulAssoc(a: int, b: int, c: int)
    ensures (a * b) * c == a * (b * c)
  {
  }

  lemma MulMono(a: nat, x: nat, y: nat)
    requires x <= y
    ensures a * x <= a * y
  {
  }

  lemma ModUnique(n: nat, d: nat, a: nat, b: nat)
    requires d > 0 && n == d * a + b && b < d
    ensures n % d == b
  {
    var a', b' := n / d, n % d;
    assert n == d * a' + b';
    if a' < a {
      MulMono(d, a' + 1, a);
    } else if a < a' {
      MulMono(d, a + 1, a');
    }
  }

  /** Btoi inverts Itob: an Itob-encoded argument decodes to the number it encodes. */
  lemma BtoiItob(n: U64)
    ensures Btoi(Itob(n)) == Some(n)
  {
    var s := Itob(n);
    assert |s| == 8 && IsBytes(s);
    BigEndianItobN(n, 8);
    Pow256OfEight();
    ModUnique(n, Pow256(8), 0, n);
    assert BigEndian(s) == n;
  }

  lemma Pow256OfEight()
    ensures Pow256(8) == MaxUInt + 1
  {
    assert Pow256(2) == 0x1_0000;
    assert Pow256(4) == 0x1_0000_0000;
    assert Pow256(6) == 0x1_0000_0000_0000;
  }

  /** Itob is injective, so keys built from distinct numbers are distinct. */
  lemma ItobInjective(m: U64, n: U64)
    ensures Itob(m) == Itob(n) <==> m == n
  {
    if Itob(m) == Itob(n) {
      BtoiItob(m);
      BtoiItob(n);
    }
  }

  // ---------------------------------------------------------------- values

  /**
   * Integer constants of contracts.constants.  Their numeric values are not
   * part of this model: they are symbols, distinct from one another and from
   * every literal number.
   */
  datatype IntConst =
    | ALGO | USDC
    | ADMIN_ROLE | USER_ROLE
    | VERIFIED_STATUS | NOT_VERIFIED_STATUS
    | BASIC_SUBSCRIPTION | PREMIUM_SUBSCRIPTION
    | SUBSCRIBE_CREATOR | SUBSCRIBE_REFERRAL | SUBSCRIBE_PLATFORM

  /**
   * A TEAL stack value: a byte string, a uint64, or one of the symbolic
   * integer constants.  In application arguments a uint stands for its Itob
   * encoding (see BtoiArg).
   */
  datatype Value = Bytes(s: string) | Int(n: U64) | Const(c: IntConst)

  /** A global or local key/value store; absent keys read as the uint 0. */
  type Store = map<Value, Value>

  function Get(m: Store, k: Value): Value
  {
    if k in m then m[k] else Int(0)
  }

  /** The uint a value holds; anything else aborts when used as a number. */
  function AsUInt(v: Value): Option<U64>
  {
    if v.Int? then Some(v.n) else None
  }

  /** The address a byte-string value holds; a uint used as an address aborts. */
  function AsAddress(v: Value): Option<Address>
  {
    if v.Bytes? then Some(v.s) else None
  }

  /** Btoi applied to an argument: raw bytes are decoded, an Itob-encoded uint is the uint itself. */
  function BtoiArg(v: Value): Option<Value>
  {
    match v
    case Bytes(s) => var n :- Btoi(s); Some(Int(n))
    case _ => Some(v)
  }

  /** Concatenation of a byte-string value with more bytes. */
  function Cat(a: Value, s: string): Value
    requires a.Bytes?
  {
    Bytes(a.s + s)
  }

  // ---------------------------------------------------------------- transactions

  /** Account addresses are 32-byte strings. */
  type Address = string

  const ZeroAddress: Address := "\0\0\0\0\0\0\0\0\0\0\0\0\0\0\0\0\0\0\0\0\0\0\0\0\0\0\0\0\0\0\0\0"

  datatype TxnType = Payment | KeyRegistration | AssetConfig | AssetTransfer | AssetFreeze | ApplicationCall

  datatype OnComplete = NoOp | OptIn | CloseOut | ClearState | UpdateApplication | DeleteApplication

  /**
   * The transaction fields the programs read.  `accounts` and `apps` are the
   * explicit foreign arrays: Txn.accounts[0] is the sender and
   * Txn.applications[0] the called application (see Account and App).
   */
  datatype Txn = Txn(
    txnType: TxnType,
    sender: Address,
    receiver: Address,
    amount: U64,
    xferAsset: U64,
    assetAmount: U64,
    assetSender: Address,
    assetReceiver: Address,
    freezeAsset: U64,
    freezeAccount: Address,
    frozen: bool,
    rekeyTo: Address,
    appId: U64,
    onCompletion: OnComplete,
    args: seq<Value>,
    accounts: seq<Address>,
    assets: seq<U64>,
    apps: seq<U64>)

  /** A transaction with every field at its zero value, sent by `sender`. */
  function BlankTxn(t: TxnType, sender: Address): Txn
  {
    Txn(t, sender, ZeroAddress, 0, 0, 0, ZeroAddress, ZeroAddress, 0, ZeroAddress, false,
        ZeroAddress, 0, NoOp, [], [], [], [])
  }

  /** Txn.application_args[i]; a missing argument aborts. */
  function Arg(t: Txn, i: nat): Option<Value>
  {
    if i < |t.args| then Some(t.args[i]) else None
  }

  /** Btoi(Txn.application_args[i]). */
  function ArgUInt(t: Txn, i: nat): Option<Value>
  {
    var v :- Arg(t, i);
    BtoiArg(v)
  }

  /** Txn.accounts[i]: index 0 is the sender. */
  function Account(t: Txn, i: nat): Option<Address>
  {
    if i == 0 then Some(t.sender)
    else if i - 1 < |t.accounts| then Some(t.accounts[i - 1])
    else None
  }

  /** Txn.assets[i]. */
  function Asset(t: Txn, i: nat): Option<U64>
  {
    if i < |t.assets| then Some(t.assets[i]) else None
  }

  /** Txn.applications[i]: index 0 is the called application. */
  function App(t: Txn, i: nat): Option<U64>
  {
    if i == 0 then Some(t.appId)
    else if i - 1 < |t.apps| then Some(t.apps[i - 1])
    else None
  }

  /** Holds when argument i is present and equal to v. */
  predicate ArgIs(t: Txn, i: nat, v: Value)
  {
    i < |t.args| && t.args[i] == v
  }

  // ---------------------------------------------------------------- the ledger, read-only

  datatype AssetParams = AssetParams(
    creator: Address, manager: Address, clawback: Address, freeze: Address,
    defaultFrozen: bool, decimals: U64, total: U64)

  /**
   * What a program may read of the rest of the ledger: other programs'
   * global and local stores, application addresses and creators, asset
   * parameters, account holdings, and the id the next application created
   * in this run receives.
   */
  datatype Ledger = Ledger(
    globals: map<U64, Store>,
    locals: map<U64, map<Address, Store>>,
    appAddress: U64 -> Address,
    appCreator: U64 -> Address,
    assetParams: U64 -> AssetParams,
    holdingFrozen: (Address, U64) -> bool,
    holdingBalance: (Address, U64) -> U64,
    nextAppId: U64)

  /** App.globalGetEx(app, key).value(): the uint 0 when the application or key is missing. */
  function GlobalOf(l: Ledger, app: U64, key: Value): Value
  {
    if app in l.globals then Get(l.globals[app], key) else Int(0)
  }

  /** App.globalGetEx(app, key).hasValue(). */
  predicate HasGlobal(l: Ledger, app: U64, key: Value)
  {
    app in l.globals && key in l.globals[app]
  }

  /** App.localGetEx(account, app, key).value(). */
  function LocalOf(l: Ledger, account: Address, app: U64, key: Value): Value
  {
    if app in l.locals && account in l.locals[app] then Get(l.locals[app][account], key) else Int(0)
  }

  /**
   * App.globalGetEx(app, key).value() as run by the program whose own global
   * store is `own`: the id 0 names the running application itself, any other
   * id is looked up on the ledger.
   */
  function GlobalEx(l: Ledger, own: Store, app: U64, key: Value): Value
  {
    if app == 0 then Get(own, key) else GlobalOf(l, app, key)
  }

  /** App.globalGetEx(app, key).hasValue(), with the id 0 naming the running application. */
  predicate HasGlobalEx(l: Ledger, own: Store, app: U64, key: Value)
  {
    if app == 0 then key in own else HasGlobal(l, app, key)
  }

  /** App.localGetEx(account, app, key).value(), with the id 0 naming the running application, whose local stores are `own`. */
  function LocalEx(l: Ledger, own: map<Address, Store>, account: Address, app: U64, key: Value): Value
  {
    if app == 0 then (if account in own then Get(own[account], key) else Int(0)) else LocalOf(l, account, app, key)
  }

  // ---------------------------------------------------------------- one program run

  datatype CallContext = CallContext(group: seq<Txn>, index: nat, callerApp: U64, now: U64, ledger: Ledger)
  {
    /** The transaction being approved (Txn). */
    function Current(): Txn
      requires index < |group|
    {
      group[index]
    }

    /** Gtxn[k]; an index past the group aborts. */
    function Gtxn(k: nat): Option<Txn>
    {
      if k < |group| then Some(group[k]) else None
    }
  }

  const EmptyLedger := Ledger(map[], map[], _ => ZeroAddress, _ => ZeroAddress,
                              _ => AssetParams(ZeroAddress, ZeroAddress, ZeroAddress, ZeroAddress, false, 0, 0), (_, _) => false, (_, _) => 0, 1)

  /** A program run: the group, the index of the approved transaction in it, Global.caller_app_id, Global.latest_timestamp and the ledger view. */
  type Call = c: CallContext | c.index < |c.group|
    witness CallContext([BlankTxn(ApplicationCall, ZeroAddress)], 0, 0, 0, EmptyLedger)

  function Sender(c: Call): Address
  {
    c.Current().sender
  }

  /** Global.current_application_address(). */
  function SelfAddress(c: Call): Address
  {
    c.ledger.appAddress(c.Current().appId)
  }

  /**
   * AppParam.address(app) as run by the program of `c`: the id 0 names the
   * running application, so it gives that program's own account.
   */
  function AppAddressEx(c: Call, app: U64): Address
  {
    if app == 0 then SelfAddress(c) else c.ledger.appAddress(app)
  }

  /** Global.creator_address(). */
  function Creator(c: Call): Address
  {
    c.ledger.appCreator(c.Current().appId)
  }

  /** Txn.rekey_to() == Global.zero_address(). */
  predicate NoRekey(c: Call)
  {
    c.Current().rekeyTo == ZeroAddress
  }

  // ---------------------------------------------------------------- outcomes

  /** Inner transactions submitted by a run, one sequence per submitted inner group. */
  type Outbox = seq<seq<Txn>>

  datatype Outcome = Reject | Accept(outbox: Outbox)

  /** A program's own state: its global store and the local store of every opted-in account. */
  datatype AppState = AppState(global: Store, local: map<Address, Store>)

  /** An approved run: the program's new state and the inner transactions it submitted. */
  datatype Step = Step(state: AppState, outbox: Outbox)

  /** A handler specification yields None when the program rejects or aborts. */
  type Run = Option<Step>

  /** Assert(b) of PyTeal: the run continues only when b holds. */
  function Assert(b: bool): Option<()>
  {
    if b then Some(()) else None
  }

  /** The outcome a run reports. */
  function OutcomeOf(res: Run): Outcome
  {
    if res.Some? then Accept(res.value.outbox) else Reject
  }

  /** A run committed `res`: rejection keeps the old state, approval installs the new one. */
  predicate Commits(before: AppState, res: Run, after: AppState, r: Outcome)
  {
    r == OutcomeOf(res) && after == (if res.Some? then res.value.state else before)
  }

  /** App.localPut(account, key, v): aborts when the account has not opted in. */
  function LocalPut(st: AppState, account: Address, key: Value, v: Value): Option<AppState>
  {
    if account in st.local then Some(st.(local := st.local[account := st.local[account][key := v]]))
    else None
  }

  /** App.localGet(account, key). */
  function LocalGet(st: AppState, account: Address, key: Value): Value
  {
    if account in st.local then Get(st.local[account], key) else Int(0)
  }

  // ---------------------------------------------------------------- Cond

  /**
   * PyTeal's Cond: the branch conditions are evaluated in order; the first
   * that holds selects its branch, a condition that faults aborts, and when
   * none holds the program aborts.
   */
  function FirstMatch<Op>(branches: seq<(Option<bool>, Op)>): Option<Op>
  {
    if branches == [] then None
    else match branches[0].0
      case None => None
      case Some(true) => Some(branches[0].1)
      case Some(false) => FirstMatch(branches[1..])
  }

  /** Cond runs branch i when condition i holds and every earlier one evaluated to false. */
  lemma {:induction false} FirstMatchAt<Op>(branches: seq<(Option<bool>, Op)>, i: nat)
    requires i < |branches| && branches[i].0 == Some(true)
    requires forall j :: 0 <= j < i ==> branches[j].0 == Some(false)
    ensures FirstMatch(branches) == Some(branches[i].1)
    decreases i
  {
    if i > 0 {
      assert branches[1..][i - 1] == branches[i];
      FirstMatchAt(branches[1..], i - 1);
    }
  }

  /** Cond aborts at a condition that faults once every earlier one evaluated to false. */
  lemma {:induction false} FirstMatchFaultsAt<Op>(branches: seq<(Option<bool>, Op)>, i: nat)
    requires i < |branches| && branches[i].0.None?
    requires forall j :: 0 <= j < i ==> branches[j].0 == Some(false)
    ensures FirstMatch(branches).None?
    decreases i
  {
    if i > 0 {
      assert branches[1..][i - 1] == branches[i];
      FirstMatchFaultsAt(branches[1..], i - 1);
    }
  }

  /** Cond aborts when every condition evaluates to false. */
  lemma {:induction false} FirstMatchNoneHolds<Op>(branches: seq<(Option<bool>, Op)>)
    requires forall j :: 0 <= j < |branches| ==> branches[j].0 == Some(false)
    ensures FirstMatch(branches).None?
    decreases |branches|
  {
    if branches != [] {
      assert forall j :: 0 <= j < |branches[1..]| ==> branches[1..][j] == branches[j + 1];
      FirstMatchNoneHolds(branches[1..]);
    }
  }

  /** Cond never selects an op that no branch carries. */
  lemma {:induction false} FirstMatchAvoids<Op>(branches: seq<(Option<bool>, Op)>, op: Op)
    requires forall j :: 0 <= j < |branches| ==> branches[j].1 != op
    ensures FirstMatch(branches) != Some(op)
    decreases |branches|
  {
    if branches != [] && branches[0].0 == Some(false) {
      assert forall j :: 0 <= j < |branches[1..]| ==> branches[1..][j] == branches[j + 1];
      FirstMatchAvoids(branches[1..], op);
    }
  }

  /** Cond selects op only as the branch of the first condition that holds, after every earlier one evaluated to false. */
  lemma {:induction false} FirstMatchSelects<Op>(branches: seq<(Option<bool>, Op)>, op: Op)
    ensures FirstMatch(branches) == Some(op) <==>
      exists i :: 0 <= i < |branches| && branches[i] == (Some(true), op) &&
        forall j :: 0 <= j < i ==> branches[j].0 == Some(false)
  {
    if branches != [] {
      FirstMatchSelects(branches[1..], op);
      if FirstMatch(branches) == Some(op) && branches[0].0 == Some(false) {
        var i :| 0 <= i < |branches[1..]| && branches[1..][i] == (Some(true), op) &&
          forall j :: 0 <= j < i ==> branches[1..][j].0 == Some(false);
        assert branches[i + 1] == (Some(true), op);
        assert forall j :: 0 <= j < i + 1 ==> branches[j].0 == Some(false) by {
          forall j | 0 <= j < i + 1 ensures branches[j].0 == Some(false) {
            if j > 0 { assert branches[j] == branches[1..][j - 1]; }
          }
        }
      }
      if exists i :: 0 <= i < |branches| && branches[i] == (Some(true), op) &&
          forall j :: 0 <= j < i ==> branches[j].0 == Some(false) {
        var i :| 0 <= i < |branches| && branches[i] == (Some(true), op) &&
          forall j :: 0 <= j < i ==> branches[j].0 == Some(false);
        if i > 0 {
          assert branches[1..][i - 1] == (Some(true), op);
          assert forall j :: 0 <= j < i - 1 ==> branches[1..][j].0 == Some(false) by {
            forall j | 0 <= j < i - 1 ensures branches[1..][j].0 == Some(false) {
              assert branches[1..][j] == branches[j + 1];
            }
          }
        }
      }
    }
  }
}

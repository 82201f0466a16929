/**
 * The asset-manager contract as the provisioning code sees it: whether the user's account
 * exists, whether the orderly key is announced, whether (and which) trading key is set, and
 * the storage figures read before an announcement. Every call the code makes is recorded in
 * order; the calls that change the contract are the writes.
 */
module Chain {
  import opened Wrappers

  /** The contract methods named in the code, with the arguments the code passes. */
  datatype Call =
    | UserAccountExists(user: string)
    | StorageDeposit(accountId: string, registrationOnly: bool, deposit: nat)
    | CreateUserAccount
    | IsOrderlyKeyAnnounced(user: string, orderlyKey: string)
    | UserAnnounceKey
    | IsTradingKeySet(user: string, orderlyKey: string)
    | GetUserTradingKey(user: string, orderlyKey: string)
    | UserRequestSetTradingKey(key: string)
    | StorageCostOfAnnounceKey
    | StorageBalanceOf(accountId: string)
    | UserStorageUsage(user: string)
    | StorageWithdraw(amount: Option<nat>, deposit: nat)
    | StorageUnregister(deposit: nat)
    | UserDepositNativeToken(nativeAmount: nat)
    | FtTransferCall(ftAmount: nat, receiverId: string, msg: Option<string>)

  predicate IsWrite(c: Call) {
    c.StorageDeposit? || c.CreateUserAccount? || c.UserAnnounceKey? || c.UserRequestSetTradingKey?
    || c.StorageWithdraw? || c.StorageUnregister? || c.UserDepositNativeToken? || c.FtTransferCall?
  }

  /** The writes of a call sequence, in order. */
  function Writes(calls: seq<Call>): seq<Call> {
    if calls == [] then []
    else (if IsWrite(calls[0]) then [calls[0]] else []) + Writes(calls[1..])
  }

  lemma {:induction false} WritesConcat(a: seq<Call>, b: seq<Call>)
    ensures Writes(a + b) == Writes(a) + Writes(b)
  {
    if a != [] {
      assert (a + b)[0] == a[0] && (a + b)[1..] == a[1..] + b;
      WritesConcat(a[1..], b);
    } else {
      assert a + b == b;
    }
  }

  lemma WritesOne(c: Call)
    ensures Writes([c]) == if IsWrite(c) then [c] else []
  {
    assert [c][1..] == [];
  }

  lemma WritesTwo(c: Call, d: Call)
    ensures Writes([c, d]) == (if IsWrite(c) then [c] else []) + (if IsWrite(d) then [d] else [])
  {
    assert [c, d][1..] == [d];
    WritesOne(d);
  }

  /** A call sequence without a write. */
  lemma {:induction false} NoWrites(calls: seq<Call>)
    requires forall i :: 0 <= i < |calls| ==> !IsWrite(calls[i])
    ensures Writes(calls) == []
  {
    if calls != [] {
      NoWrites(calls[1..]);
    }
  }

  /** Appending two pieces one after the other appends them together. */
  lemma AppendAssoc<T>(a: seq<T>, b: seq<T>, c: seq<T>)
    ensures (a + b) + c == a + (b + c)
  {
  }

  /** The contract's state for the one user and orderly key the client provisions. */
  datatype State = State(
    accountExists: bool,
    keyAnnounced: bool,
    tradingKeySet: bool,
    tradingKey: string,
    usage: int,
    cost: int,
    total: int,
    /** the methods that throw when called (a failed view or transaction) */
    failing: set<Method>)

  /** What a call returns: a flag, a text, an amount, nothing, or an exception. */
  datatype Reply = Flag(flag: bool) | Text(text: string) | Amount(amount: int) | Done | Threw

  /** The contract methods, by name. */
  datatype Method =
    | UserAccountExistsMethod | StorageDepositMethod | CreateUserAccountMethod | IsOrderlyKeyAnnouncedMethod
    | UserAnnounceKeyMethod | IsTradingKeySetMethod | GetUserTradingKeyMethod | UserRequestSetTradingKeyMethod
    | StorageCostOfAnnounceKeyMethod | StorageBalanceOfMethod | UserStorageUsageMethod | StorageWithdrawMethod
    | StorageUnregisterMethod | UserDepositNativeTokenMethod | FtTransferCallMethod

  function MethodOf(c: Call): Method {
    match c
    case UserAccountExists(_) => UserAccountExistsMethod
    case StorageDeposit(_, _, _) => StorageDepositMethod
    case CreateUserAccount => CreateUserAccountMethod
    case IsOrderlyKeyAnnounced(_, _) => IsOrderlyKeyAnnouncedMethod
    case UserAnnounceKey => UserAnnounceKeyMethod
    case IsTradingKeySet(_, _) => IsTradingKeySetMethod
    case GetUserTradingKey(_, _) => GetUserTradingKeyMethod
    case UserRequestSetTradingKey(_) => UserRequestSetTradingKeyMethod
    case StorageCostOfAnnounceKey => StorageCostOfAnnounceKeyMethod
    case StorageBalanceOf(_) => StorageBalanceOfMethod
    case UserStorageUsage(_) => UserStorageUsageMethod
    case StorageWithdraw(_, _) => StorageWithdrawMethod
    case StorageUnregister(_) => StorageUnregisterMethod
    case UserDepositNativeToken(_) => UserDepositNativeTokenMethod
    case FtTransferCall(_, _, _) => FtTransferCallMethod
  }

  /** The state after a call: a registration creates the account, an announcement or a key registration records it. */
  function Apply(s: State, c: Call): State {
    if MethodOf(c) in s.failing then s
    else match c
      case StorageDeposit(_, registrationOnly, deposit) =>
        s.(accountExists := true, total := if registrationOnly then s.total else s.total + deposit)
      case CreateUserAccount => s.(accountExists := true)
      case UserAnnounceKey => s.(keyAnnounced := true)
      case UserRequestSetTradingKey(key) => s.(tradingKeySet := true, tradingKey := key)
      case _ => s
  }

  /** What a call returns in a state. */
  function ReplyOf(s: State, c: Call): Reply {
    if MethodOf(c) in s.failing then Threw
    else match c
      case UserAccountExists(_) => Flag(s.accountExists)
      case IsOrderlyKeyAnnounced(_, _) => Flag(s.keyAnnounced)
      case IsTradingKeySet(_, _) => Flag(s.tradingKeySet)
      case GetUserTradingKey(_, _) => Text(s.tradingKey)
      case StorageCostOfAnnounceKey => Amount(s.cost)
      case StorageBalanceOf(_) => Amount(s.total)
      case UserStorageUsage(_) => Amount(s.usage)
      case _ => Done
  }

  /** The state after a sequence of calls. */
  function Run(s: State, calls: seq<Call>): State
    decreases |calls|
  {
    if calls == [] then s else Run(Apply(s, calls[0]), calls[1..])
  }

  lemma {:induction false} RunConcat(s: State, a: seq<Call>, b: seq<Call>)
    ensures Run(s, a + b) == Run(Run(s, a), b)
    decreases |a|
  {
    if a != [] {
      assert (a + b)[0] == a[0] && (a + b)[1..] == a[1..] + b;
      RunConcat(Apply(s, a[0]), a[1..], b);
    } else {
      assert a + b == b;
    }
  }

  lemma RunOne(s: State, c: Call)
    ensures Run(s, [c]) == Apply(s, c)
  {
    assert [c][1..] == [];
  }

  lemma RunTwo(s: State, c: Call, d: Call)
    ensures Run(s, [c, d]) == Apply(Apply(s, c), d)
  {
    assert [c, d][1..] == [d];
    RunOne(Apply(s, c), d);
  }

  /** Calls that do not write leave the contract as it was. */
  lemma {:induction false} RunReads(s: State, calls: seq<Call>)
    requires forall i :: 0 <= i < |calls| ==> !IsWrite(calls[i])
    ensures Run(s, calls) == s
    decreases |calls|
  {
    if calls != [] {
      RunReads(Apply(s, calls[0]), calls[1..]);
    }
  }

  /** The deployed contract: its state, and the log of every call made on it, in order. */
  class Contract {
    var accountExists: bool
    var keyAnnounced: bool
    var tradingKeySet: bool
    var tradingKey: string
    var usage: int
    var cost: int
    var total: int
    var failing: set<Method>
    var log: seq<Call>

    function Snapshot(): State
      reads this
    {
      State(accountExists, keyAnnounced, tradingKeySet, tradingKey, usage, cost, total, failing)
    }

    constructor (s: State)
      ensures Snapshot() == s && log == []
    {
      accountExists, keyAnnounced, tradingKeySet, tradingKey := s.accountExists, s.keyAnnounced, s.tradingKeySet, s.tradingKey;
      usage, cost, total, failing := s.usage, s.cost, s.total, s.failing;
      log := [];
    }

    /** `contract[method](args)`: records the call, answers it, and applies its effect. */
    method Invoke(c: Call) returns (r: Reply)
      modifies this
      ensures r == ReplyOf(old(Snapshot()), c)
      ensures Snapshot() == Apply(old(Snapshot()), c)
      ensures log == old(log) + [c]
    {
      r := ReplyOf(Snapshot(), c);
      var s := Apply(Snapshot(), c);
      accountExists, keyAnnounced, tradingKeySet, tradingKey := s.accountExists, s.keyAnnounced, s.tradingKeySet, s.tradingKey;
      usage, cost, total, failing := s.usage, s.cost, s.total, s.failing;
      log := log + [c];
    }
  }
}

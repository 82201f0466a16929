/**
 * The asset-manager client (clients/asset-manager/asset-manager.client.ts): `connect` makes
 * sure the user's account exists, that the orderly key is announced and that a trading key
 * is registered, each by reading a predicate and writing only when it is false; and the
 * storage calls shape their arguments.
 */
module AssetManager {
  import opened Wrappers
  import opened External
  import opened Chain
  import TradingKey

  /** parseNearAmount('0.005') in yoctoNEAR. */
  const RegistrationDeposit: nat := 5_000_000_000_000_000_000_000

  const ContractCallFailed := "contract call failed"

  /** The calls of one step, the contract state after them, and whether the step finished without an exception. */
  datatype Step = Step(calls: seq<Call>, post: State, ok: bool)

  /** The calls of `connect`, the state after them, and the trading key it resolves to or the exception it rejects with. */
  datatype Outcome = Outcome(calls: seq<Call>, post: State, result: Result<string>)

  /** createUserAccount: registers the account with a 0.005 NEAR deposit when it does not exist. */
  function CreateUserAccountStep(s: State, accountId: string): Step {
    var found := ReplyOf(s, UserAccountExists(accountId));
    if found.Threw? then Step([UserAccountExists(accountId)], s, false)
    else if found == Flag(false) then
      var deposit := StorageDeposit(accountId, true, RegistrationDeposit);
      Step([UserAccountExists(accountId), deposit], Apply(s, deposit), !ReplyOf(s, deposit).Threw?)
    else Step([UserAccountExists(accountId)], s, true)
  }

  /** announceKey: announces the orderly key when it is not announced yet. */
  function AnnounceKeyStep(s: State, signerId: string, publicKey: string): Step {
    var announced := ReplyOf(s, IsOrderlyKeyAnnounced(signerId, publicKey));
    if announced.Threw? then Step([IsOrderlyKeyAnnounced(signerId, publicKey)], s, false)
    else if announced == Flag(false) then
      Step([IsOrderlyKeyAnnounced(signerId, publicKey), UserAnnounceKey], Apply(s, UserAnnounceKey),
           !ReplyOf(s, UserAnnounceKey).Threw?)
    else Step([IsOrderlyKeyAnnounced(signerId, publicKey)], s, true)
  }

  /** setTradingKey: the registered key when one is set, else `newKey` registered and returned. */
  function SetTradingKeyStep(s: State, accountId: string, publicKey: string, newKey: string): Outcome {
    var isSet := ReplyOf(s, IsTradingKeySet(accountId, publicKey));
    if isSet.Threw? then Outcome([IsTradingKeySet(accountId, publicKey)], s, Failure(ContractCallFailed))
    else if isSet == Flag(true) then
      var stored := ReplyOf(s, GetUserTradingKey(accountId, publicKey));
      Outcome([IsTradingKeySet(accountId, publicKey), GetUserTradingKey(accountId, publicKey)], s,
              if stored.Text? then Success(stored.text) else Failure(ContractCallFailed))
    else
      var register := UserRequestSetTradingKey(newKey);
      Outcome([IsTradingKeySet(accountId, publicKey), register], Apply(s, register),
              if ReplyOf(s, register).Threw? then Failure(ContractCallFailed) else Success(newKey))
  }

  /** connect: the three steps in order, each on the state the previous one left; an exception stops it. */
  function ConnectSpec(s: State, accountId: string, signerId: string, publicKey: string, newKey: string): Outcome {
    var a := CreateUserAccountStep(s, accountId);
    if !a.ok then Outcome(a.calls, a.post, Failure(ContractCallFailed))
    else
      var b := AnnounceKeyStep(a.post, signerId, publicKey);
      if !b.ok then Outcome(a.calls + b.calls, b.post, Failure(ContractCallFailed))
      else
        var c := SetTradingKeyStep(b.post, accountId, publicKey, newKey);
        Outcome(a.calls + b.calls + c.calls, c.post, c.result)
  }

  /** The place of a provisioning write in the protocol: account, then announcement, then trading key. */
  function Rank(c: Call): nat {
    match c
    case StorageDeposit(_, _, _) => 0
    case CreateUserAccount => 0
    case UserAnnounceKey => 1
    case UserRequestSetTradingKey(_) => 2
    case _ => 3
  }

  predicate RanksIncrease(w: seq<Call>) {
    forall i, j :: 0 <= i < j < |w| ==> Rank(w[i]) < Rank(w[j])
  }

  lemma RanksConcat(a: seq<Call>, b: seq<Call>)
    requires RanksIncrease(a) && RanksIncrease(b)
    requires forall i, j :: 0 <= i < |a| && 0 <= j < |b| ==> Rank(a[i]) < Rank(b[j])
    ensures RanksIncrease(a + b)
  {
    forall i, j | 0 <= i < j < |a + b| ensures Rank((a + b)[i]) < Rank((a + b)[j]) {
      if j < |a| {
        assert (a + b)[i] == a[i] && (a + b)[j] == a[j];
      } else if i < |a| {
        assert (a + b)[i] == a[i] && (a + b)[j] == b[j - |a|];
      } else {
        assert (a + b)[i] == b[i - |a|] && (a + b)[j] == b[j - |a|];
      }
    }
  }

  /** createUserAccount writes the registration deposit exactly when the existence check answers false, and nothing else. */
  lemma CreateUserAccountWrites(s: State, accountId: string)
    ensures Writes(CreateUserAccountStep(s, accountId).calls)
      == if UserAccountExistsMethod !in s.failing && !s.accountExists
         then [StorageDeposit(accountId, true, RegistrationDeposit)] else []
  {
    WritesOne(UserAccountExists(accountId));
    WritesTwo(UserAccountExists(accountId), StorageDeposit(accountId, true, RegistrationDeposit));
  }

  /** announceKey announces exactly when the announcement check answers false, and writes nothing else. */
  lemma AnnounceKeyWrites(s: State, signerId: string, publicKey: string)
    ensures Writes(AnnounceKeyStep(s, signerId, publicKey).calls)
      == if IsOrderlyKeyAnnouncedMethod !in s.failing && !s.keyAnnounced then [UserAnnounceKey] else []
  {
    WritesOne(IsOrderlyKeyAnnounced(signerId, publicKey));
    WritesTwo(IsOrderlyKeyAnnounced(signerId, publicKey), UserAnnounceKey);
  }

  /** setTradingKey registers `newKey` exactly when the check answers that no key is set, and writes nothing else. */
  lemma SetTradingKeyWrites(s: State, accountId: string, publicKey: string, newKey: string)
    ensures Writes(SetTradingKeyStep(s, accountId, publicKey, newKey).calls)
      == if IsTradingKeySetMethod !in s.failing && !s.tradingKeySet then [UserRequestSetTradingKey(newKey)] else []
  {
    WritesOne(IsTradingKeySet(accountId, publicKey));
    WritesTwo(IsTradingKeySet(accountId, publicKey), GetUserTradingKey(accountId, publicKey));
    WritesTwo(IsTradingKeySet(accountId, publicKey), UserRequestSetTradingKey(newKey));
  }

  /** Three writes at most, one of each rank, concatenated in rank order. */
  lemma RankedConcat(wa: seq<Call>, wb: seq<Call>, wc: seq<Call>, x: Call, y: Call, z: Call)
    requires Rank(x) == 0 && Rank(y) == 1 && Rank(z) == 2
    requires wa == [] || wa == [x]
    requires wb == [] || wb == [y]
    requires wc == [] || wc == [z]
    ensures RanksIncrease(wa + wb + wc)
  {
    RanksConcat(wa, wb);
    RanksConcat(wa + wb, wc);
  }

  /** connect writes at most once per step, strictly in the order account, announcement, trading key. */
  lemma ConnectWritesInOrder(s: State, accountId: string, signerId: string, publicKey: string, newKey: string)
    ensures var w := Writes(ConnectSpec(s, accountId, signerId, publicKey, newKey).calls);
      |w| <= 3 && RanksIncrease(w)
  {
    var o := ConnectSpec(s, accountId, signerId, publicKey, newKey);
    var x, y, z := StorageDeposit(accountId, true, RegistrationDeposit), UserAnnounceKey, UserRequestSetTradingKey(newKey);
    var a := CreateUserAccountStep(s, accountId);
    CreateUserAccountWrites(s, accountId);
    if !a.ok {
      RankedConcat(Writes(a.calls), [], [], x, y, z);
      assert Writes(a.calls) + [] + [] == Writes(o.calls);
    } else {
      var b := AnnounceKeyStep(a.post, signerId, publicKey);
      AnnounceKeyWrites(a.post, signerId, publicKey);
      WritesConcat(a.calls, b.calls);
      if !b.ok {
        RankedConcat(Writes(a.calls), Writes(b.calls), [], x, y, z);
        assert Writes(a.calls) + Writes(b.calls) + [] == Writes(o.calls);
      } else {
        var c := SetTradingKeyStep(b.post, accountId, publicKey, newKey);
        SetTradingKeyWrites(b.post, accountId, publicKey, newKey);
        assert o.calls == (a.calls + b.calls) + c.calls;
        WritesConcat(a.calls + b.calls, c.calls);
        RankedConcat(Writes(a.calls), Writes(b.calls), Writes(c.calls), x, y, z);
      }
    }
  }

  /**
   * createUserAccount replays to the state it reports, touches only the account flag,
   * ends with the account in place when it finishes, and is a pure read when the account exists.
   */
  lemma CreateUserAccountFacts(s: State, accountId: string)
    ensures var a := CreateUserAccountStep(s, accountId);
      && Run(s, a.calls) == a.post
      && a.post.(accountExists := s.accountExists) == s
      && (a.ok ==> a.post.accountExists)
      && (s.accountExists ==> a.post == s && Writes(a.calls) == [])
  {
    var read := UserAccountExists(accountId);
    RunOne(s, read);
    RunTwo(s, read, StorageDeposit(accountId, true, RegistrationDeposit));
    WritesOne(read);
  }

  /**
   * announceKey replays to the state it reports, touches only the announcement flag,
   * ends with the key announced when it finishes, and is a pure read when it already is.
   */
  lemma AnnounceKeyFacts(s: State, signerId: string, publicKey: string)
    ensures var b := AnnounceKeyStep(s, signerId, publicKey);
      && Run(s, b.calls) == b.post
      && b.post.(keyAnnounced := s.keyAnnounced) == s
      && (b.ok ==> b.post.keyAnnounced)
      && (s.keyAnnounced ==> b.post == s && Writes(b.calls) == [])
  {
    var read := IsOrderlyKeyAnnounced(signerId, publicKey);
    RunOne(s, read);
    RunTwo(s, read, UserAnnounceKey);
    WritesOne(read);
  }

  /**
   * setTradingKey replays to the state it reports and touches only the trading key; a key it
   * resolves to is the registered one; a key already set is returned as stored and never
   * replaced, and otherwise the key it resolves to is exactly the one it submitted.
   */
  lemma SetTradingKeyFacts(s: State, accountId: string, publicKey: string, newKey: string)
    ensures var c := SetTradingKeyStep(s, accountId, publicKey, newKey);
      && Run(s, c.calls) == c.post
      && c.post.(tradingKeySet := s.tradingKeySet, tradingKey := s.tradingKey) == s
      && (c.result.Success? ==> c.post.tradingKeySet && c.post.tradingKey == c.result.value)
      && (s.tradingKeySet ==> c.post == s && Writes(c.calls) == [])
      && (!s.tradingKeySet && c.result.Success? ==> c.result.value == newKey)
  {
    var read := IsTradingKeySet(accountId, publicKey);
    RunOne(s, read);
    RunTwo(s, read, GetUserTradingKey(accountId, publicKey));
    RunTwo(s, read, UserRequestSetTradingKey(newKey));
    WritesOne(read);
    WritesTwo(read, GetUserTradingKey(accountId, publicKey));
  }

  /** Replaying connect's calls on the contract gives the state connect reports. */
  lemma ConnectReplays(s: State, accountId: string, signerId: string, publicKey: string, newKey: string)
    ensures var o := ConnectSpec(s, accountId, signerId, publicKey, newKey);
      Run(s, o.calls) == o.post
  {
    var a := CreateUserAccountStep(s, accountId);
    CreateUserAccountFacts(s, accountId);
    if a.ok {
      var b := AnnounceKeyStep(a.post, signerId, publicKey);
      AnnounceKeyFacts(a.post, signerId, publicKey);
      RunConcat(s, a.calls, b.calls);
      if b.ok {
        var c := SetTradingKeyStep(b.post, accountId, publicKey, newKey);
        SetTradingKeyFacts(b.post, accountId, publicKey, newKey);
        RunConcat(s, a.calls + b.calls, c.calls);
      }
    }
  }

  /**
   * A connect that resolves leaves the account registered, the orderly key announced and a
   * trading key set, and the key it resolves to is the registered one. A key already set is
   * the one it resolves to; otherwise it resolves to the key it submitted.
   */
  lemma ConnectProvisions(s: State, accountId: string, signerId: string, publicKey: string, newKey: string)
    ensures var o := ConnectSpec(s, accountId, signerId, publicKey, newKey);
      && (o.result.Success? ==>
            && o.post.accountExists && o.post.keyAnnounced && o.post.tradingKeySet
            && o.post.tradingKey == o.result.value
            && o.result.value == (if s.tradingKeySet then s.tradingKey else newKey))
      && (s.tradingKeySet ==> o.post.tradingKeySet && o.post.tradingKey == s.tradingKey)
  {
    var a := CreateUserAccountStep(s, accountId);
    CreateUserAccountFacts(s, accountId);
    if a.ok {
      var b := AnnounceKeyStep(a.post, signerId, publicKey);
      AnnounceKeyFacts(a.post, signerId, publicKey);
      if b.ok {
        SetTradingKeyFacts(b.post, accountId, publicKey, newKey);
      }
    }
  }

  /** On a fully provisioned contract connect only reads: no write, nothing changes, the stored key comes back. */
  lemma ConnectWhenProvisioned(s: State, accountId: string, signerId: string, publicKey: string, newKey: string)
    requires s.accountExists && s.keyAnnounced && s.tradingKeySet
    ensures var o := ConnectSpec(s, accountId, signerId, publicKey, newKey);
      && Writes(o.calls) == [] && o.post == s
      && (o.result.Success? ==> o.result.value == s.tradingKey)
  {
    var a := CreateUserAccountStep(s, accountId);
    CreateUserAccountFacts(s, accountId);
    if a.ok {
      var b := AnnounceKeyStep(s, signerId, publicKey);
      AnnounceKeyFacts(s, signerId, publicKey);
      WritesConcat(a.calls, b.calls);
      if b.ok {
        var c := SetTradingKeyStep(s, accountId, publicKey, newKey);
        SetTradingKeyFacts(s, accountId, publicKey, newKey);
        WritesConcat(a.calls + b.calls, c.calls);
      }
    }
  }

  /**
   * A second connect after one that resolved writes nothing, leaves the contract as it was and
   * never replaces the trading key: when it resolves, it resolves to the same key.
   */
  lemma SecondConnectNoWrites(s: State, accountId: string, signerId: string, publicKey: string, newKey: string, otherKey: string)
    requires ConnectSpec(s, accountId, signerId, publicKey, newKey).result.Success?
    ensures var first := ConnectSpec(s, accountId, signerId, publicKey, newKey);
      var second := ConnectSpec(first.post, accountId, signerId, publicKey, otherKey);
      && Writes(second.calls) == [] && second.post == first.post
      && (second.result.Success? ==> second.result == first.result)
  {
    var first := ConnectSpec(s, accountId, signerId, publicKey, newKey);
    ConnectProvisions(s, accountId, signerId, publicKey, newKey);
    ConnectWhenProvisioned(first.post, accountId, signerId, publicKey, otherKey);
  }

  /** `storage.deposit(amount)`: a deposit for the client's own account that is not registration-only. */
  function StorageDepositCall(accountId: string, amount: nat): (c: Call)
    ensures c.StorageDeposit? && c.accountId == accountId && !c.registrationOnly && c.deposit == amount
  {
    StorageDeposit(accountId, false, amount)
  }

  /** `storage.withdraw(amount)`: the amount goes in the arguments only when it is truthy; one yoctoNEAR is attached. */
  function StorageWithdrawCall(amount: nat): (c: Call)
    ensures c.StorageWithdraw? && c.deposit == 1
    ensures c.amount.Some? <==> amount != 0
    ensures c.amount.Some? ==> c.amount.value == amount
  {
    StorageWithdraw(if amount != 0 then Some(amount) else None, 1)
  }

  /** `storage.unregister(force)`: empty arguments and one yoctoNEAR attached, whatever `force` says. */
  function StorageUnregisterCall(force: bool): (c: Call)
    ensures c.StorageUnregister? && c.deposit == 1
  {
    StorageUnregister(1)
  }

  /** The asset-manager client of one account, signed in with one orderly key, on the deployed contract. */
  class Client {
    /** SDKConfig.accountId */
    const accountId: string
    /** SDKConfig.publicKey, the orderly key */
    const publicKey: string
    /** contract.account.accountId, the account the contract object signs with */
    const signerId: string
    const lib: Lib
    const contract: Contract

    constructor (accountId: string, publicKey: string, signerId: string, lib: Lib, contract: Contract)
      ensures this.accountId == accountId && this.publicKey == publicKey && this.signerId == signerId
      ensures this.lib == lib && this.contract == contract
    {
      this.accountId, this.publicKey, this.signerId := accountId, publicKey, signerId;
      this.lib, this.contract := lib, contract;
    }

    method CreateUserAccount() returns (ok: bool)
      modifies contract
      ensures var a := CreateUserAccountStep(old(contract.Snapshot()), accountId);
        && ok == a.ok && contract.Snapshot() == a.post && contract.log == old(contract.log) + a.calls
    {
      var found := contract.Invoke(UserAccountExists(accountId));
      if found.Threw? {
        return false;
      }
      ok := true;
      if found == Flag(false) {
        var r := contract.Invoke(StorageDeposit(accountId, true, RegistrationDeposit));
        ok := !r.Threw?;
      }
    }

    method AnnounceKey() returns (ok: bool)
      modifies contract
      ensures var b := AnnounceKeyStep(old(contract.Snapshot()), signerId, publicKey);
        && ok == b.ok && contract.Snapshot() == b.post && contract.log == old(contract.log) + b.calls
    {
      var announced := contract.Invoke(IsOrderlyKeyAnnounced(signerId, publicKey));
      if announced.Threw? {
        return false;
      }
      ok := true;
      if announced == Flag(false) {
        var r := contract.Invoke(UserAnnounceKey);
        ok := !r.Threw?;
      }
    }

    /** `kp` is the key pair `ec.genKeyPair()` would return; it is used only when no key is set. */
    method SetTradingKey(kp: TradingKey.KeyPair) returns (r: Result<string>)
      modifies contract
      ensures var c := SetTradingKeyStep(old(contract.Snapshot()), accountId, publicKey, TradingKey.Normalize(lib, kp.publicHex));
        && r == c.result && contract.Snapshot() == c.post && contract.log == old(contract.log) + c.calls
    {
      var isSet := contract.Invoke(IsTradingKeySet(accountId, publicKey));
      if isSet.Threw? {
        return Failure(ContractCallFailed);
      }
      if isSet == Flag(true) {
        var stored := contract.Invoke(GetUserTradingKey(accountId, publicKey));
        return if stored.Text? then Success(stored.text) else Failure(ContractCallFailed);
      }
      var normalizeTradingKey := TradingKey.Normalize(lib, kp.publicHex);
      var reply := contract.Invoke(UserRequestSetTradingKey(normalizeTradingKey));
      r := if reply.Threw? then Failure(ContractCallFailed) else Success(normalizeTradingKey);
    }

    /** connect: account, announcement, trading key, in that order; the first exception rejects the whole call. */
    method Connect(kp: TradingKey.KeyPair) returns (r: Result<string>)
      modifies contract
      ensures var o := ConnectSpec(old(contract.Snapshot()), accountId, signerId, publicKey, TradingKey.Normalize(lib, kp.publicHex));
        && r == o.result && contract.Snapshot() == o.post && contract.log == old(contract.log) + o.calls
    {
      ghost var s0, log0, newKey := contract.Snapshot(), contract.log, TradingKey.Normalize(lib, kp.publicHex);
      ghost var o := ConnectSpec(s0, accountId, signerId, publicKey, newKey);
      ghost var a := CreateUserAccountStep(s0, accountId);
      var ok := CreateUserAccount();
      if !ok {
        return Failure(ContractCallFailed);
      }
      ghost var b := AnnounceKeyStep(a.post, signerId, publicKey);
      ok := AnnounceKey();
      AppendAssoc(log0, a.calls, b.calls);
      if !ok {
        return Failure(ContractCallFailed);
      }
      ghost var c := SetTradingKeyStep(b.post, accountId, publicKey, newKey);
      AppendAssoc(log0, a.calls + b.calls, c.calls);
      r := SetTradingKey(kp);
    }

    method Deposit(amount: nat) returns (r: Reply)
      modifies contract
      ensures var c := StorageDepositCall(accountId, amount);
        && r == ReplyOf(old(contract.Snapshot()), c)
        && contract.Snapshot() == Apply(old(contract.Snapshot()), c) && contract.log == old(contract.log) + [c]
    {
      r := contract.Invoke(StorageDepositCall(accountId, amount));
    }

    method Withdraw(amount: nat) returns (r: Reply)
      modifies contract
      ensures var c := StorageWithdrawCall(amount);
        && r == ReplyOf(old(contract.Snapshot()), c)
        && contract.Snapshot() == Apply(old(contract.Snapshot()), c) && contract.log == old(contract.log) + [c]
    {
      r := contract.Invoke(StorageWithdrawCall(amount));
    }

    method Unregister(force: bool) returns (r: Reply)
      modifies contract
      ensures var c := StorageUnregisterCall(force);
        && r == ReplyOf(old(contract.Snapshot()), c)
        && contract.Snapshot() == Apply(old(contract.Snapshot()), c) && contract.log == old(contract.log) + [c]
    {
      r := contract.Invoke(StorageUnregisterCall(force));
    }
  }
}

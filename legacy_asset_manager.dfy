/**
 * The older asset-manager client (smart-contract/asset-manager.client.ts). Its steps are
 * separate public methods rather than one `connect`, every check names the contract
 * object's own signing account as `user`, the account is created with `create_user_account`
 * instead of a storage deposit, and `setTradingKey` hands the generated key material back
 * instead of returning the stored key.
 */
module LegacyAssetManager {
  import opened Wrappers
  import opened External
  import opened Chain
  import opened AssetManager
  import TradingKey

  /** createUserAccount: `create_user_account` when the signing account does not exist yet. */
  function CreateAccountStep(s: State, signerId: string): Step {
    var found := ReplyOf(s, UserAccountExists(signerId));
    if found.Threw? then Step([UserAccountExists(signerId)], s, false)
    else if found == Flag(false) then
      Step([UserAccountExists(signerId), CreateUserAccount], Apply(s, CreateUserAccount), !ReplyOf(s, CreateUserAccount).Threw?)
    else Step([UserAccountExists(signerId)], s, true)
  }

  /** What setTradingKey resolves to when it registers a key. */
  datatype NewTradingKey = NewTradingKey(publicKey: string, privateKey: string, tradingKey: string)

  /** The calls of setTradingKey, the state after them, and its value: nothing when a key is already set. */
  datatype KeyOutcome = KeyOutcome(calls: seq<Call>, post: State, result: Result<Option<NewTradingKey>>)

  /** setTradingKey for the key pair `ec.genKeyPair()` returns; the key hashed is the whole public hex. */
  function SetKeyStep(s: State, lib: Lib, signerId: string, orderlyKey: string, kp: TradingKey.KeyPair): KeyOutcome {
    var isSet := ReplyOf(s, IsTradingKeySet(signerId, orderlyKey));
    if isSet.Threw? then KeyOutcome([IsTradingKeySet(signerId, orderlyKey)], s, Failure(ContractCallFailed))
    else if isSet == Flag(true) then KeyOutcome([IsTradingKeySet(signerId, orderlyKey)], s, Success(None))
    else
      var normalizeTradingKey := TradingKey.Normalize(lib, kp.publicHex);
      var register := UserRequestSetTradingKey(normalizeTradingKey);
      KeyOutcome([IsTradingKeySet(signerId, orderlyKey), register], Apply(s, register),
                 if ReplyOf(s, register).Threw? then Failure(ContractCallFailed)
                 else Success(Some(NewTradingKey(kp.publicHex, kp.privateHex, normalizeTradingKey))))
  }

  /** The TypeError the returned object's `privateKey` field raises: a bn.js number has no `encode`. */
  const PrivateEncodeMissing := "keyPair.getPrivate(...).encode is not a function"

  /**
   * setTradingKey as written: the private key is read with `getPrivate().encode('hex')` only
   * after the registration call, and that expression throws, so every path that registers a
   * key rejects.
   */
  function SetKeyStepAsWritten(s: State, lib: Lib, signerId: string, orderlyKey: string, kp: TradingKey.KeyPair): KeyOutcome {
    var c := SetKeyStep(s, lib, signerId, orderlyKey, kp);
    if c.result.Success? && c.result.value.Some? then c.(result := Failure(PrivateEncodeMissing)) else c
  }

  /**
   * As written, a setTradingKey that finds no key set and whose registration goes through has
   * registered the normalized public key on the contract and still rejects, so the caller
   * never sees the key pair it would need to sign with it; it never resolves to a key.
   */
  lemma SetKeyAsWrittenRegistersThenFails(s: State, lib: Lib, signerId: string, orderlyKey: string, kp: TradingKey.KeyPair)
    ensures var w := SetKeyStepAsWritten(s, lib, signerId, orderlyKey, kp);
      && !(w.result.Success? && w.result.value.Some?)
      && (IsTradingKeySetMethod !in s.failing && !s.tradingKeySet && UserRequestSetTradingKeyMethod !in s.failing ==>
            && Writes(w.calls) == [UserRequestSetTradingKey(TradingKey.Normalize(lib, kp.publicHex))]
            && w.post.tradingKeySet && w.post.tradingKey == TradingKey.Normalize(lib, kp.publicHex)
            && w.result == Failure(PrivateEncodeMissing))
  {
    var read := IsTradingKeySet(signerId, orderlyKey);
    WritesTwo(read, UserRequestSetTradingKey(TradingKey.Normalize(lib, kp.publicHex)));
  }

  /**
   * createUserAccount asks about the signing account, creates it exactly when the answer is
   * false, replays to the state it reports and leaves it created when it finishes.
   */
  lemma CreateAccountFacts(s: State, signerId: string)
    ensures var a := CreateAccountStep(s, signerId);
      && a.calls[0] == UserAccountExists(signerId)
      && Writes(a.calls) == (if UserAccountExistsMethod !in s.failing && !s.accountExists then [CreateUserAccount] else [])
      && Run(s, a.calls) == a.post
      && a.post.(accountExists := s.accountExists) == s
      && (a.ok ==> a.post.accountExists)
  {
    var read := UserAccountExists(signerId);
    RunOne(s, read);
    RunTwo(s, read, CreateUserAccount);
    WritesOne(read);
    WritesTwo(read, CreateUserAccount);
  }

  /**
   * With a key already set setTradingKey resolves to nothing and writes nothing. Otherwise a
   * value it resolves to carries the whole public hex, the private hex, and as `tradingKey`
   * the normalized whole public hex, which is exactly the key it submitted and the one now
   * registered.
   */
  lemma SetKeyFacts(s: State, lib: Lib, signerId: string, orderlyKey: string, kp: TradingKey.KeyPair)
    ensures var c := SetKeyStep(s, lib, signerId, orderlyKey, kp);
      && c.calls[0] == IsTradingKeySet(signerId, orderlyKey)
      && Run(s, c.calls) == c.post
      && (IsTradingKeySetMethod !in s.failing && s.tradingKeySet ==>
            c.result == Success(None) && Writes(c.calls) == [] && c.post == s)
      && (c.result.Success? && c.result.value.Some? ==>
            var g := c.result.value.value;
            && g.publicKey == kp.publicHex && g.privateKey == kp.privateHex
            && g.tradingKey == TradingKey.Normalize(lib, kp.publicHex)
            && Writes(c.calls) == [UserRequestSetTradingKey(g.tradingKey)]
            && c.post.tradingKeySet && c.post.tradingKey == g.tradingKey)
  {
    var read := IsTradingKeySet(signerId, orderlyKey);
    RunOne(s, read);
    RunTwo(s, read, UserRequestSetTradingKey(TradingKey.Normalize(lib, kp.publicHex)));
    WritesOne(read);
    WritesTwo(read, UserRequestSetTradingKey(TradingKey.Normalize(lib, kp.publicHex)));
  }

  /** deposit: a fungible-token transfer call when a (non-empty) receiver is given, else a native-token deposit. */
  function DepositCall(amount: nat, receiverId: Option<string>, msg: Option<string>): (c: Call)
    ensures IsWrite(c) && (c.FtTransferCall? || c.UserDepositNativeToken?)
    ensures c.FtTransferCall? <==> receiverId.Some? && receiverId.value != ""
    ensures c.FtTransferCall? ==> c.ftAmount == amount && Some(c.receiverId) == receiverId && c.msg == msg
    ensures c.UserDepositNativeToken? ==> c.nativeAmount == amount
  {
    if receiverId.Some? && receiverId.value != "" then FtTransferCall(amount, receiverId.value, msg)
    else UserDepositNativeToken(amount)
  }

  /** The older client: the contract object, its signing account, and the orderly key from the environment. */
  class Client {
    /** getContract().account.accountId */
    const signerId: string
    /** process.env.ORDERLY_KEY */
    const orderlyKey: string
    const lib: Lib
    const contract: Contract

    constructor (signerId: string, orderlyKey: string, lib: Lib, contract: Contract)
      ensures this.signerId == signerId && this.orderlyKey == orderlyKey && this.lib == lib && this.contract == contract
    {
      this.signerId, this.orderlyKey, this.lib, this.contract := signerId, orderlyKey, lib, contract;
    }

    method CreateUserAccount() returns (ok: bool)
      modifies contract
      ensures var a := CreateAccountStep(old(contract.Snapshot()), signerId);
        && ok == a.ok && contract.Snapshot() == a.post && contract.log == old(contract.log) + a.calls
    {
      var found := contract.Invoke(UserAccountExists(signerId));
      if found.Threw? {
        return false;
      }
      ok := true;
      if found == Flag(false) {
        var r := contract.Invoke(Call.CreateUserAccount);
        ok := !r.Threw?;
      }
    }

    /** announceKey: the same check-then-announce step as the newer client, for the signing account. */
    method AnnounceKey() returns (ok: bool)
      modifies contract
      ensures var b := AnnounceKeyStep(old(contract.Snapshot()), signerId, orderlyKey);
        && ok == b.ok && contract.Snapshot() == b.post && contract.log == old(contract.log) + b.calls
    {
      var announced := contract.Invoke(IsOrderlyKeyAnnounced(signerId, orderlyKey));
      if announced.Threw? {
        return false;
      }
      ok := true;
      if announced == Flag(false) {
        var r := contract.Invoke(UserAnnounceKey);
        ok := !r.Threw?;
      }
    }

    /** `kp` is the key pair `ec.genKeyPair()` would return; it is used only when no key is set. */
    method SetTradingKey(kp: TradingKey.KeyPair) returns (r: Result<Option<NewTradingKey>>)
      modifies contract
      ensures var c := SetKeyStep(old(contract.Snapshot()), lib, signerId, orderlyKey, kp);
        && r == c.result && contract.Snapshot() == c.post && contract.log == old(contract.log) + c.calls
    {
      var isSet := contract.Invoke(IsTradingKeySet(signerId, orderlyKey));
      if isSet.Threw? {
        return Failure(ContractCallFailed);
      }
      if isSet == Flag(true) {
        return Success(None);
      }
      var normalizeTradingKey := TradingKey.Normalize(lib, kp.publicHex);
      var reply := contract.Invoke(UserRequestSetTradingKey(normalizeTradingKey));
      r := if reply.Threw? then Failure(ContractCallFailed)
           else Success(Some(NewTradingKey(kp.publicHex, kp.privateHex, normalizeTradingKey)));
    }

    method Deposit(amount: nat, receiverId: Option<string>, msg: Option<string>) returns (r: Reply)
      modifies contract
      ensures var c := DepositCall(amount, receiverId, msg);
        && r == ReplyOf(old(contract.Snapshot()), c)
        && contract.Snapshot() == Apply(old(contract.Snapshot()), c) && contract.log == old(contract.log) + [c]
    {
      r := contract.Invoke(DepositCall(amount, receiverId, msg));
    }
  }
}

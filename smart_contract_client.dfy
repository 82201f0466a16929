/**
 * The browser smart-contract client (smart-contract/index.ts). Once the NEAR wallet is signed
 * in, `connect` asks the asset-manager contract about the account, the orderly key and the
 * trading key, asks the wallet to top up storage where that is needed, registers a trading
 * key derived from a fresh key pair (with the "04" prefix stripped), keeps the trading
 * credentials in localStorage, reads them back into the SDK options, runs the asset-manager
 * client's own `connect`, and finally records the login in localStorage.
 */
module SmartContract {
  import opened Wrappers
  import opened External
  import opened Chain
  import opened Configuration
  import AssetManager
  import TradingKey

  /** parseNearAmount('1') in yoctoNEAR. */
  const OneNear: nat := 1_000_000_000_000_000_000_000_000

  /** The gas attached to a wallet request. */
  const WalletGas: nat := 30_000_000_000_000

  /** localStorage item names. */
  const TradingKeyItem := "TRADING_KEY"
  const TradingSecretItem := "TRADING_KEY_SECRET"
  const LoginItem := "IS_LOGINED_SDK"

  /**
   * `wallet.callMethod(contract, method, args, gas, deposit)`: a transaction the wallet is asked
   * to sign. It is not awaited, so nothing in this client depends on it having happened.
   */
  datatype WalletRequest = WalletRequest(call: Call, gas: nat)

  /** The wallet request that registers the account: `storage_deposit` with registration_only and 1 NEAR. */
  function RegistrationRequest(accountId: string): WalletRequest {
    WalletRequest(StorageDeposit(accountId, true, OneNear), WalletGas)
  }

  /** The wallet request that tops up storage before an announcement: a plain `storage_deposit` of 1 NEAR. */
  function TopUpRequest(accountId: string): WalletRequest {
    WalletRequest(StorageDeposit(accountId, false, OneNear), WalletGas)
  }

  /** The orderly key pair the wallet's key store holds for the account. */
  datatype OrderlyKeyPair = OrderlyKeyPair(publicKey: string, secretKey: string)


  /** `localStorage.getItem(name)`. */
  function GetItem(storage: map<string, string>, name: string): Option<string> {
    if name in storage then Some(storage[name]) else None
  }

  /**
   * The options built after provisioning. `setItem` returns undefined, so each trading
   * credential falls through the `||` to what localStorage holds.
   */
  function OptionsFor(networkId: string, accountId: string, orderlyKey: OrderlyKeyPair, storage: map<string, string>): SdkOptions {
    SdkOptions(networkId, accountId, orderlyKey.publicKey, "ed25519:" + orderlyKey.secretKey,
               GetItem(storage, TradingKeyItem), GetItem(storage, TradingSecretItem))
  }

  /** One part of provisioning: the contract calls, the wallet requests, the contract state and localStorage after it, and whether it went on without an exception. */
  datatype Phase = Phase(calls: seq<Call>, requests: seq<WalletRequest>, post: State, storage: map<string, string>, ok: bool)

  /** The account check: a registration request to the wallet when the account does not exist. */
  function AccountPhase(s: State, storage: map<string, string>, accountId: string): Phase {
    var found := ReplyOf(s, UserAccountExists(accountId));
    if found.Threw? then Phase([UserAccountExists(accountId)], [], s, storage, false)
    else if found == Flag(false) then Phase([UserAccountExists(accountId)], [RegistrationRequest(accountId)], s, storage, true)
    else Phase([UserAccountExists(accountId)], [], s, storage, true)
  }

  /** usage + cost − total: how much storage the account lacks for the announcement. */
  function Shortfall(s: State): int {
    s.usage + s.cost - s.total
  }

  /**
   * The try block of the announcement: read the storage figures, then ask the wallet for a
   * top-up when there is a shortfall, or else announce. An exception ends the block and is
   * swallowed, so the block always lets `connect` go on.
   */
  function TopUpOrAnnounce(s: State, storage: map<string, string>, accountId: string): Phase {
    var cost := ReplyOf(s, StorageCostOfAnnounceKey);
    var balance := ReplyOf(s, StorageBalanceOf(accountId));
    var usage := ReplyOf(s, UserStorageUsage(accountId));
    var figures := [StorageCostOfAnnounceKey, StorageBalanceOf(accountId), UserStorageUsage(accountId)];
    if !cost.Amount? then Phase(figures[..1], [], s, storage, true)
    else if !balance.Amount? then Phase(figures[..2], [], s, storage, true)
    else if !usage.Amount? then Phase(figures, [], s, storage, true)
    else if usage.amount + cost.amount - balance.amount > 0 then Phase(figures, [TopUpRequest(accountId)], s, storage, true)
    else Phase(figures + [UserAnnounceKey], [], Apply(s, UserAnnounceKey), storage, true)
  }

  /** The announcement: nothing more when the key is announced, else the try block; a failed check escapes. */
  function AnnouncePhase(s: State, storage: map<string, string>, accountId: string, orderlyPub: string): Phase {
    var check := IsOrderlyKeyAnnounced(accountId, orderlyPub);
    var announced := ReplyOf(s, check);
    if announced.Threw? then Phase([check], [], s, storage, false)
    else if announced != Flag(false) then Phase([check], [], s, storage, true)
    else
      var t := TopUpOrAnnounce(s, storage, accountId);
      Phase([check] + t.calls, t.requests, t.post, storage, true)
  }

  /**
   * The trading key: when none is set, register the normalized stripped public hex of the
   * generated key `g`
   * and keep the stripped hex and the private hex in localStorage.
   */
  function TradingKeyPhase(s: State, storage: map<string, string>, accountId: string, orderlyPub: string,
                           g: TradingKey.GeneratedKey): Phase {
    var check := IsTradingKeySet(accountId, orderlyPub);
    var isSet := ReplyOf(s, check);
    if isSet.Threw? then Phase([check], [], s, storage, false)
    else if isSet != Flag(false) then Phase([check], [], s, storage, true)
    else
      var register := UserRequestSetTradingKey(g.normalizeTradingKey);
      if ReplyOf(s, register).Threw? then Phase([check, register], [], s, storage, false)
      else Phase([check, register], [], Apply(s, register),
                 storage[TradingKeyItem := g.pubKeyAsHex][TradingSecretItem := g.privateKey], true)
  }

  /** One phase after another: the calls and requests of both, the state and localStorage the second leaves. */
  function Then(a: Phase, b: Phase): Phase {
    Phase(a.calls + b.calls, a.requests + b.requests, b.post, b.storage, b.ok)
  }

  /** The announcement and then, unless an exception escaped it, the trading-key phase. */
  function KeyPhases(s: State, storage: map<string, string>, accountId: string, orderlyPub: string,
                     g: TradingKey.GeneratedKey): Phase {
    var b := AnnouncePhase(s, storage, accountId, orderlyPub);
    if !b.ok then b else Then(b, TradingKeyPhase(b.post, b.storage, accountId, orderlyPub, g))
  }

  /** The provisioning part of `connect` for a signed-in wallet: the three phases in order; an exception that escapes stops it. */
  function ProvisionSpec(s: State, storage: map<string, string>, accountId: string, orderlyPub: string,
                         g: TradingKey.GeneratedKey): Phase {
    var a := AccountPhase(s, storage, accountId);
    if !a.ok then a else Then(a, KeyPhases(a.post, a.storage, accountId, orderlyPub, g))
  }

  /**
   * The account check only reads; it asks the wallet for a registration exactly when the
   * contract answers that the account does not exist.
   */
  lemma AccountPhaseFacts(s: State, storage: map<string, string>, accountId: string)
    ensures var a := AccountPhase(s, storage, accountId);
      && a.calls == [UserAccountExists(accountId)] && a.post == s && a.storage == storage
      && (a.ok <==> UserAccountExistsMethod !in s.failing)
      && a.requests == if a.ok && !s.accountExists then [RegistrationRequest(accountId)] else []
  {
  }

  /** Reads followed by one call end where that call alone would. */
  lemma ReadsThenWrite(s: State, queried: seq<Call>, c: Call)
    requires forall i :: 0 <= i < |queried| ==> !IsWrite(queried[i])
    ensures Run(s, queried + [c]) == Apply(s, c)
  {
    RunReads(s, queried);
    RunConcat(s, queried, [c]);
    RunOne(s, c);
  }

  /** Every storage figure reads without an exception. */
  predicate FiguresRead(s: State) {
    StorageCostOfAnnounceKeyMethod !in s.failing && StorageBalanceOfMethod !in s.failing && UserStorageUsageMethod !in s.failing
  }

  /**
   * The try block always lets `connect` go on, leaves the trading key alone, and once the
   * figures are read asks the wallet for a top-up exactly when there is a shortfall.
   */
  lemma TopUpOrAnnounceFacts(s: State, storage: map<string, string>, accountId: string)
    ensures var t := TopUpOrAnnounce(s, storage, accountId);
      && t.ok && t.storage == storage
      && t.post.tradingKeySet == s.tradingKeySet && t.post.tradingKey == s.tradingKey && t.post.failing == s.failing
      && t.requests == (if FiguresRead(s) && Shortfall(s) > 0 then [TopUpRequest(accountId)] else [])
  {
  }

  /**
   * The try block replays to the state it reports, and its only possible write is the
   * announcement, made exactly when the figures are read and show no shortfall.
   */
  lemma TopUpOrAnnounceWrites(s: State, storage: map<string, string>, accountId: string)
    ensures var t := TopUpOrAnnounce(s, storage, accountId);
      && Run(s, t.calls) == t.post
      && Writes(t.calls) == (if FiguresRead(s) && Shortfall(s) <= 0 then [UserAnnounceKey] else [])
  {
    var figures := [StorageCostOfAnnounceKey, StorageBalanceOf(accountId), UserStorageUsage(accountId)];
    var t := TopUpOrAnnounce(s, storage, accountId);
    if !FiguresRead(s) || Shortfall(s) > 0 {
      assert t.calls == figures[..1] || t.calls == figures[..2] || t.calls == figures;
      NoWrites(t.calls);
      RunReads(s, t.calls);
    } else {
      assert t.calls == figures + [UserAnnounceKey];
      ReadsThenWrite(s, figures, UserAnnounceKey);
      NoWrites(figures);
      WritesConcat(figures, [UserAnnounceKey]);
      WritesOne(UserAnnounceKey);
    }
  }

  /**
   * The methods the contract object of `connect` is built with: the change-method list of
   * the asset-manager method table, which names neither `storage_cost_of_announce_key` nor
   * `user_storage_usage`.
   */
  const ListedMethods: set<Method> := {
    StorageDepositMethod, UserAnnounceKeyMethod, UserRequestSetTradingKeyMethod,
    UserDepositNativeTokenMethod, FtTransferCallMethod, StorageWithdrawMethod, StorageUnregisterMethod,
    UserAccountExistsMethod, StorageBalanceOfMethod, GetUserTradingKeyMethod, IsOrderlyKeyAnnouncedMethod,
    IsTradingKeySetMethod}

  /** A contract object built from that list: a method it does not carry throws when called. */
  predicate BuiltFromList(s: State) {
    forall m: Method :: m !in ListedMethods ==> m in s.failing
  }

  /**
   * With the contract object built as written, the first read of the try block throws and is
   * swallowed: whatever the storage figures, the announcement phase neither asks the wallet
   * for a top-up nor announces the key, and for a key not yet announced it still lets
   * `connect` go on.
   */
  lemma AnnounceAsWrittenNeverAnnounces(s: State, storage: map<string, string>, accountId: string, orderlyPub: string)
    requires BuiltFromList(s)
    ensures var b := AnnouncePhase(s, storage, accountId, orderlyPub);
      && b.requests == [] && Writes(b.calls) == [] && b.post == s && b.storage == storage
      && (IsOrderlyKeyAnnouncedMethod !in s.failing && !s.keyAnnounced ==>
            b.ok && b.calls == [IsOrderlyKeyAnnounced(accountId, orderlyPub), StorageCostOfAnnounceKey])
  {
    var check := IsOrderlyKeyAnnounced(accountId, orderlyPub);
    assert StorageCostOfAnnounceKeyMethod !in ListedMethods;
    assert ReplyOf(s, StorageCostOfAnnounceKey) == Threw;
    var b := AnnouncePhase(s, storage, accountId, orderlyPub);
    assert b.calls == [check] || b.calls == [check, StorageCostOfAnnounceKey];
    NoWrites(b.calls);
  }

  /**
   * The announcement phase fails only when the announcement check throws, and an announced
   * key leads to no further call. For a key not announced, once the figures are read, the
   * wallet is asked for a top-up exactly when there is a shortfall.
   */
  lemma AnnouncePhaseFacts(s: State, storage: map<string, string>, accountId: string, orderlyPub: string)
    ensures var b := AnnouncePhase(s, storage, accountId, orderlyPub);
      && b.storage == storage && b.post.failing == s.failing
      && b.post.tradingKeySet == s.tradingKeySet && b.post.tradingKey == s.tradingKey
      && b.calls[0] == IsOrderlyKeyAnnounced(accountId, orderlyPub)
      && (b.ok <==> IsOrderlyKeyAnnouncedMethod !in s.failing)
      && (b.ok && s.keyAnnounced ==> |b.calls| == 1 && b.post == s)
      && b.requests == (if IsOrderlyKeyAnnouncedMethod !in s.failing && !s.keyAnnounced && FiguresRead(s) && Shortfall(s) > 0
                        then [TopUpRequest(accountId)] else [])
  {
    TopUpOrAnnounceFacts(s, storage, accountId);
  }

  /**
   * The announcement phase replays to the state it reports, and its only possible write is
   * the announcement, made exactly when the key is not announced and the figures read show
   * no shortfall.
   */
  lemma AnnouncePhaseWrites(s: State, storage: map<string, string>, accountId: string, orderlyPub: string)
    ensures var b := AnnouncePhase(s, storage, accountId, orderlyPub);
      && Run(s, b.calls) == b.post
      && Writes(b.calls) == if IsOrderlyKeyAnnouncedMethod !in s.failing && !s.keyAnnounced && FiguresRead(s) && Shortfall(s) <= 0
                            then [UserAnnounceKey] else []
  {
    var check := IsOrderlyKeyAnnounced(accountId, orderlyPub);
    var t := TopUpOrAnnounce(s, storage, accountId);
    TopUpOrAnnounceWrites(s, storage, accountId);
    RunOne(s, check);
    WritesOne(check);
    RunConcat(s, [check], t.calls);
    WritesConcat([check], t.calls);
  }

  /**
   * A trading key is registered only when the contract answers that none is set, and the key
   * registered is the generated normalized key.
   */
  lemma TradingKeyPhaseWrites(s: State, storage: map<string, string>, accountId: string, orderlyPub: string,
                              g: TradingKey.GeneratedKey)
    ensures Writes(TradingKeyPhase(s, storage, accountId, orderlyPub, g).calls)
      == if IsTradingKeySetMethod !in s.failing && !s.tradingKeySet then [UserRequestSetTradingKey(g.normalizeTradingKey)] else []
  {
    var check := IsTradingKeySet(accountId, orderlyPub);
    if IsTradingKeySetMethod !in s.failing && !s.tradingKeySet {
      WritesTwo(check, UserRequestSetTradingKey(g.normalizeTradingKey));
    } else {
      WritesOne(check);
    }
  }

  /** The trading-key phase replays to the state it reports. */
  lemma TradingKeyPhaseReplays(s: State, storage: map<string, string>, accountId: string, orderlyPub: string,
                               g: TradingKey.GeneratedKey)
    ensures var c := TradingKeyPhase(s, storage, accountId, orderlyPub, g);
      Run(s, c.calls) == c.post
  {
    var check := IsTradingKeySet(accountId, orderlyPub);
    if IsTradingKeySetMethod !in s.failing && !s.tradingKeySet {
      RunTwo(s, check, UserRequestSetTradingKey(g.normalizeTradingKey));
    } else {
      RunOne(s, check);
    }
  }

  /**
   * The trading-key phase starts with the check and asks nothing of the wallet. When it
   * finishes a key is set. After a registration localStorage holds the stripped public hex and
   * the private hex and the contract holds the normalized key; with a key already set nothing
   * changes.
   */
  lemma TradingKeyPhaseFacts(s: State, storage: map<string, string>, accountId: string, orderlyPub: string,
                             g: TradingKey.GeneratedKey)
    ensures var c := TradingKeyPhase(s, storage, accountId, orderlyPub, g);
      var unset := IsTradingKeySetMethod !in s.failing && !s.tradingKeySet;
      && c.requests == []
      && c.calls[0] == IsTradingKeySet(accountId, orderlyPub)
      && (c.ok ==> IsTradingKeySetMethod !in s.failing && c.post.tradingKeySet)
      && (!unset ==> c.storage == storage && c.post == s)
      && (unset && c.ok ==>
            && c.storage == storage[TradingKeyItem := g.pubKeyAsHex][TradingSecretItem := g.privateKey]
            && c.post.tradingKey == g.normalizeTradingKey)
  {
  }

  /** Provisioning replays to the state it reports. */
  lemma ProvisionReplays(s: State, storage: map<string, string>, accountId: string, orderlyPub: string,
                         g: TradingKey.GeneratedKey)
    ensures var p := ProvisionSpec(s, storage, accountId, orderlyPub, g);
      Run(s, p.calls) == p.post
  {
    var a := AccountPhase(s, storage, accountId);
    AccountPhaseFacts(s, storage, accountId);
    RunOne(s, UserAccountExists(accountId));
    if a.ok {
      var b := AnnouncePhase(s, storage, accountId, orderlyPub);
      AnnouncePhaseWrites(s, storage, accountId, orderlyPub);
      var k := KeyPhases(s, storage, accountId, orderlyPub, g);
      if b.ok {
        var c := TradingKeyPhase(b.post, storage, accountId, orderlyPub, g);
        AnnouncePhaseFacts(s, storage, accountId, orderlyPub);
        TradingKeyPhaseReplays(b.post, storage, accountId, orderlyPub, g);
        RunConcat(s, b.calls, c.calls);
      }
      RunConcat(s, a.calls, k.calls);
    }
  }

  /**
   * What provisioning writes to the contract: the announcement when it is due and the storage
   * figures show no shortfall, then the registration of the generated key when no trading key
   * is set. The account itself is never written here, only requested from the wallet.
   */
  lemma ProvisionWrites(s: State, storage: map<string, string>, accountId: string, orderlyPub: string,
                        g: TradingKey.GeneratedKey)
    ensures var p := ProvisionSpec(s, storage, accountId, orderlyPub, g);
      var checked := UserAccountExistsMethod !in s.failing && IsOrderlyKeyAnnouncedMethod !in s.failing;
      var announcing := checked && !s.keyAnnounced && FiguresRead(s) && Shortfall(s) <= 0;
      var registering := checked && IsTradingKeySetMethod !in s.failing && !s.tradingKeySet;
      && Writes(p.calls)
           == (if announcing then [UserAnnounceKey] else [])
              + (if registering then [UserRequestSetTradingKey(g.normalizeTradingKey)] else [])
  {
    var a := AccountPhase(s, storage, accountId);
    AccountPhaseFacts(s, storage, accountId);
    WritesOne(UserAccountExists(accountId));
    if a.ok {
      var b := AnnouncePhase(s, storage, accountId, orderlyPub);
      AnnouncePhaseWrites(s, storage, accountId, orderlyPub);
      var k := KeyPhases(s, storage, accountId, orderlyPub, g);
      if b.ok {
        var c := TradingKeyPhase(b.post, storage, accountId, orderlyPub, g);
        AnnouncePhaseFacts(s, storage, accountId, orderlyPub);
        TradingKeyPhaseWrites(b.post, storage, accountId, orderlyPub, g);
        WritesConcat(b.calls, c.calls);
      }
      WritesConcat(a.calls, k.calls);
    }
  }

  /**
   * The wallet is asked to register the account exactly when the contract answers that it does
   * not exist, and to top up storage exactly when the announcement is due and the figures show
   * a shortfall; these requests come in that order.
   */
  lemma ProvisionRequests(s: State, storage: map<string, string>, accountId: string, orderlyPub: string,
                          g: TradingKey.GeneratedKey)
    ensures var p := ProvisionSpec(s, storage, accountId, orderlyPub, g);
      var checked := UserAccountExistsMethod !in s.failing && IsOrderlyKeyAnnouncedMethod !in s.failing;
      p.requests == (if UserAccountExistsMethod !in s.failing && !s.accountExists then [RegistrationRequest(accountId)] else [])
                    + (if checked && !s.keyAnnounced && FiguresRead(s) && Shortfall(s) > 0 then [TopUpRequest(accountId)] else [])
  {
    var a := AccountPhase(s, storage, accountId);
    AccountPhaseFacts(s, storage, accountId);
    if a.ok {
      var b := AnnouncePhase(s, storage, accountId, orderlyPub);
      AnnouncePhaseFacts(s, storage, accountId, orderlyPub);
      if b.ok {
        TradingKeyPhaseFacts(b.post, storage, accountId, orderlyPub, g);
      }
    }
  }

  /**
   * Provisioning goes on to the trading-key check whenever the account and announcement checks
   * answer, whatever happens in the announcement's try block. When it finishes a trading key
   * is set; localStorage then holds the stripped public hex and the private hex of the fresh
   * key pair if no key was set before, and is left as it was otherwise.
   */
  lemma ProvisionStorage(s: State, storage: map<string, string>, accountId: string, orderlyPub: string,
                         g: TradingKey.GeneratedKey)
    ensures var p := ProvisionSpec(s, storage, accountId, orderlyPub, g);
      && (UserAccountExistsMethod !in s.failing && IsOrderlyKeyAnnouncedMethod !in s.failing ==>
            IsTradingKeySet(accountId, orderlyPub) in p.calls)
      && (p.ok ==> p.post.tradingKeySet)
      && (p.ok && !s.tradingKeySet ==>
            p.storage == storage[TradingKeyItem := g.pubKeyAsHex][TradingSecretItem := g.privateKey])
      && (s.tradingKeySet ==> p.storage == storage)
  {
    var a := AccountPhase(s, storage, accountId);
    AccountPhaseFacts(s, storage, accountId);
    if a.ok {
      var b := AnnouncePhase(s, storage, accountId, orderlyPub);
      AnnouncePhaseFacts(s, storage, accountId, orderlyPub);
      if b.ok {
        var c := TradingKeyPhase(b.post, storage, accountId, orderlyPub, g);
        TradingKeyPhaseFacts(b.post, storage, accountId, orderlyPub, g);
        assert (a.calls + (b.calls + c.calls))[|a.calls| + |b.calls|] == c.calls[0];
      }
    }
  }

  /**
   * The trading credentials in the SDK options always come back from localStorage: after a
   * registration they are the stripped public hex and the private hex just stored; with a key
   * set before they are whatever localStorage already held, possibly nothing.
   */
  lemma CredentialsReadBack(s: State, storage: map<string, string>, networkId: string, accountId: string,
                            orderlyKey: OrderlyKeyPair, g: TradingKey.GeneratedKey)
    requires ProvisionSpec(s, storage, accountId, orderlyKey.publicKey, g).ok
    ensures var o := OptionsFor(networkId, accountId, orderlyKey, ProvisionSpec(s, storage, accountId, orderlyKey.publicKey, g).storage);
      && o.tradingPublic == (if s.tradingKeySet then GetItem(storage, TradingKeyItem) else Some(g.pubKeyAsHex))
      && o.tradingSecret == (if s.tradingKeySet then GetItem(storage, TradingSecretItem) else Some(g.privateKey))
      && o.publicKey == orderlyKey.publicKey && o.orderlyKeyPrivate == "ed25519:" + orderlyKey.secretKey
  {
    ProvisionStorage(s, storage, accountId, orderlyKey.publicKey, g);
  }

  /**
   * After provisioning finishes, the asset-manager client's own `connect` finds a trading key
   * set and never replaces it: it resolves, if at all, to the key that was already registered
   * or else to the one provisioning just registered from the stripped public hex, never to a
   * key of its own.
   */
  lemma SdkConnectKeepsProvisionedKey(s: State, storage: map<string, string>, accountId: string, orderlyPub: string,
                                      g: TradingKey.GeneratedKey, newKey: string)
    requires ProvisionSpec(s, storage, accountId, orderlyPub, g).ok
    ensures var p := ProvisionSpec(s, storage, accountId, orderlyPub, g);
      var o := AssetManager.ConnectSpec(p.post, accountId, accountId, orderlyPub, newKey);
      var key := if s.tradingKeySet then s.tradingKey else g.normalizeTradingKey;
      && p.post.tradingKeySet && p.post.tradingKey == key
      && o.post.tradingKey == key
      && (o.result.Success? ==> o.result.value == key)
  {
    var p := ProvisionSpec(s, storage, accountId, orderlyPub, g);
    AccountPhaseFacts(s, storage, accountId);
    var b := AnnouncePhase(s, storage, accountId, orderlyPub);
    AnnouncePhaseFacts(s, storage, accountId, orderlyPub);
    TradingKeyPhaseFacts(b.post, storage, accountId, orderlyPub, g);
    AssetManager.ConnectProvisions(p.post, accountId, accountId, orderlyPub, newKey);
  }

  /** `localStorage.getItem('IS_LOGINED_SDK') === 'true'`. */
  predicate LoggedIn(storage: map<string, string>) {
    GetItem(storage, LoginItem) == Some("true")
  }

  /**
   * The smart-contract client: localStorage, the requests handed to the wallet, the SDK
   * options and asset-manager client `connect` builds, and the contract it talks to.
   */
  class Client {
    var storage: map<string, string>
    var walletRequests: seq<WalletRequest>
    var options: Option<SdkOptions>
    var sc: AssetManager.Client?
    const networkId: string
    const lib: Lib
    const contract: Contract

    constructor (networkId: string, lib: Lib, contract: Contract, storage: map<string, string>)
      ensures this.networkId == networkId && this.lib == lib && this.contract == contract && this.storage == storage
      ensures walletRequests == [] && options == None && sc == null
    {
      this.networkId, this.lib, this.contract, this.storage := networkId, lib, contract, storage;
      walletRequests, options, sc := [], None, null;
    }

    /** isSignedIn */
    function IsSignedIn(): (r: bool)
      reads this
      ensures r <==> LoginItem in storage && storage[LoginItem] == "true"
    {
      LoggedIn(storage)
    }

    /** signOut: the stored flag becomes 'false'; the wallet's own sign-out is not part of this model. */
    method SignOut()
      modifies this
      ensures storage == old(storage)[LoginItem := "false"] && !IsSignedIn()
      ensures walletRequests == old(walletRequests) && options == old(options) && sc == old(sc)
    {
      storage := storage[LoginItem := "false"];
    }

    method CheckAccount(accountId: string) returns (ok: bool)
      modifies this, contract
      ensures var a := AccountPhase(old(contract.Snapshot()), old(storage), accountId);
        && ok == a.ok && contract.Snapshot() == a.post && contract.log == old(contract.log) + a.calls
        && walletRequests == old(walletRequests) + a.requests && storage == a.storage
      ensures options == old(options) && sc == old(sc)
    {
      var found := contract.Invoke(UserAccountExists(accountId));
      if found.Threw? {
        return false;
      }
      if found == Flag(false) {
        walletRequests := walletRequests + [RegistrationRequest(accountId)];
      }
      ok := true;
    }

    /** The try block: an exception from any of its calls ends it and is swallowed. */
    method TopUpOrAnnounceKey(accountId: string)
      modifies this, contract
      ensures var t := TopUpOrAnnounce(old(contract.Snapshot()), old(storage), accountId);
        && contract.Snapshot() == t.post && contract.log == old(contract.log) + t.calls
        && walletRequests == old(walletRequests) + t.requests && storage == t.storage
      ensures options == old(options) && sc == old(sc)
    {
      var cost := contract.Invoke(StorageCostOfAnnounceKey);
      if !cost.Amount? {
        return;
      }
      var balance := contract.Invoke(StorageBalanceOf(accountId));
      if !balance.Amount? {
        return;
      }
      var usage := contract.Invoke(UserStorageUsage(accountId));
      if !usage.Amount? {
        return;
      }
      if usage.amount + cost.amount - balance.amount > 0 {
        walletRequests := walletRequests + [TopUpRequest(accountId)];
      } else {
        var _ := contract.Invoke(UserAnnounceKey);
      }
    }

    method AnnounceKey(accountId: string, orderlyPub: string) returns (ok: bool)
      modifies this, contract
      ensures var b := AnnouncePhase(old(contract.Snapshot()), old(storage), accountId, orderlyPub);
        && ok == b.ok && contract.Snapshot() == b.post && contract.log == old(contract.log) + b.calls
        && walletRequests == old(walletRequests) + b.requests && storage == b.storage
      ensures options == old(options) && sc == old(sc)
    {
      var announced := contract.Invoke(IsOrderlyKeyAnnounced(accountId, orderlyPub));
      if announced.Threw? {
        return false;
      }
      if announced == Flag(false) {
        TopUpOrAnnounceKey(accountId);
      }
      ok := true;
    }

    /** The trading-key step, for the key `getTradingKeyPair` and the normalization give. */
    method RegisterTradingKey(accountId: string, orderlyPub: string, g: TradingKey.GeneratedKey) returns (ok: bool)
      modifies this, contract
      ensures var c := TradingKeyPhase(old(contract.Snapshot()), old(storage), accountId, orderlyPub, g);
        && ok == c.ok && contract.Snapshot() == c.post && contract.log == old(contract.log) + c.calls
        && walletRequests == old(walletRequests) + c.requests && storage == c.storage
      ensures options == old(options) && sc == old(sc)
    {
      var isSet := contract.Invoke(IsTradingKeySet(accountId, orderlyPub));
      if isSet.Threw? {
        return false;
      }
      ok := true;
      if isSet == Flag(false) {
        var reply := contract.Invoke(UserRequestSetTradingKey(g.normalizeTradingKey));
        if reply.Threw? {
          return false;
        }
        storage := storage[TradingKeyItem := g.pubKeyAsHex];
        storage := storage[TradingSecretItem := g.privateKey];
      }
    }

    /** The announcement and the trading-key step. */
    method ProvisionKeys(accountId: string, orderlyPub: string, g: TradingKey.GeneratedKey) returns (ok: bool)
      modifies this, contract
      ensures var k := KeyPhases(old(contract.Snapshot()), old(storage), accountId, orderlyPub, g);
        && ok == k.ok && contract.Snapshot() == k.post && contract.log == old(contract.log) + k.calls
        && walletRequests == old(walletRequests) + k.requests && storage == k.storage
      ensures options == old(options) && sc == old(sc)
    {
      ok := AnnounceKey(accountId, orderlyPub);
      if ok {
        ok := RegisterTradingKey(accountId, orderlyPub, g);
      }
    }

    /** The provisioning part of `connect`, once the wallet is signed in. */
    method Provision(accountId: string, orderlyPub: string, g: TradingKey.GeneratedKey) returns (ok: bool)
      modifies this, contract
      ensures var p := ProvisionSpec(old(contract.Snapshot()), old(storage), accountId, orderlyPub, g);
        && ok == p.ok && contract.Snapshot() == p.post && contract.log == old(contract.log) + p.calls
        && walletRequests == old(walletRequests) + p.requests && storage == p.storage
      ensures options == old(options) && sc == old(sc)
    {
      ghost var s0, storage0, log0, requests0 := contract.Snapshot(), storage, contract.log, walletRequests;
      ghost var a := AccountPhase(s0, storage0, accountId);
      ok := CheckAccount(accountId);
      if ok {
        ghost var k := KeyPhases(a.post, a.storage, accountId, orderlyPub, g);
        ok := ProvisionKeys(accountId, orderlyPub, g);
        AppendAssoc(log0, a.calls, k.calls);
        AppendAssoc(requests0, a.requests, k.requests);
      }
    }

    /**
     * The rest of `connect` after provisioning: the SDK options, the asset-manager client's own
     * `connect` for the key pair `kp2` it would generate, and the login flag once that resolves.
     */
    method StartSdk(accountId: string, orderlyKey: OrderlyKeyPair, kp2: TradingKey.KeyPair) returns (ok: bool)
      modifies this, contract
      ensures var o := AssetManager.ConnectSpec(old(contract.Snapshot()), accountId, accountId, orderlyKey.publicKey,
                                                TradingKey.Normalize(lib, kp2.publicHex));
        && options == Some(OptionsFor(networkId, accountId, orderlyKey, old(storage)))
        && ok == o.result.Success?
        && contract.Snapshot() == o.post && contract.log == old(contract.log) + o.calls
        && storage == (if ok then old(storage)[LoginItem := "true"] else old(storage))
        && walletRequests == old(walletRequests)
      ensures sc != null && fresh(sc) && sc.contract == contract && sc.lib == lib
        && sc.accountId == accountId && sc.signerId == accountId && sc.publicKey == orderlyKey.publicKey
    {
      options := Some(OptionsFor(networkId, accountId, orderlyKey, storage));
      var client := new AssetManager.Client(accountId, orderlyKey.publicKey, accountId, lib, contract);
      sc := client;
      var r := client.Connect(kp2);
      if r.Failure? {
        return false;
      }
      storage := storage[LoginItem := "true"];
      ok := true;
    }

    /**
     * connect. `signedIn` is what the wallet reports after start-up, `orderlyKey` what its key
     * store holds for the account, `kp` the key pair generated here when no trading key is set
     * and `kp2` the one the asset-manager client would generate in its own `connect`.
     */
    method Connect(signedIn: bool, accountId: string, orderlyKey: OrderlyKeyPair, kp: TradingKey.KeyPair,
                   kp2: TradingKey.KeyPair) returns (ok: bool)
      modifies this, contract
      ensures !signedIn ==>
        && ok && storage == old(storage) && walletRequests == old(walletRequests) && options == old(options)
        && sc == old(sc) && contract.Snapshot() == old(contract.Snapshot()) && contract.log == old(contract.log)
      ensures signedIn ==>
        var p := ProvisionSpec(old(contract.Snapshot()), old(storage), accountId, orderlyKey.publicKey,
                               TradingKey.GenerateTradingKey(lib, kp));
        && walletRequests == old(walletRequests) + p.requests
        && (!p.ok ==> !ok && storage == p.storage && options == old(options) && sc == old(sc)
                      && contract.Snapshot() == p.post && contract.log == old(contract.log) + p.calls)
        && (p.ok ==>
              var o := AssetManager.ConnectSpec(p.post, accountId, accountId, orderlyKey.publicKey,
                                                TradingKey.Normalize(lib, kp2.publicHex));
              && options == Some(OptionsFor(networkId, accountId, orderlyKey, p.storage))
              && ok == o.result.Success? && sc != null && fresh(sc) && sc.contract == contract
              && contract.Snapshot() == o.post && contract.log == old(contract.log) + p.calls + o.calls
              && storage == (if ok then p.storage[LoginItem := "true"] else p.storage))
    {
      if !signedIn {
        return true;
      }
      var g := TradingKey.GenerateTradingKey(lib, kp);
      ok := Provision(accountId, orderlyKey.publicKey, g);
      if ok {
        ok := StartSdk(accountId, orderlyKey, kp2);
      }
    }
  }
}

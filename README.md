# Orderly SDK core, modelled in Dafny

This project models three parts of the Orderly Network TypeScript SDK and proves properties of the model.

1. **Request signing** (`src/rest/utils/generateHeaders.ts`, `src/rest/utils/order.signature.secp256k1.ts`).
   - Two signatures protect a private request.
   - The trading key (secp256k1) signs each order object. It signs the object's keys sorted and written `key=value`, joined by `&`. The result is written as 130 hex characters.
   - The orderly key (Ed25519) signs the whole request. It signs the timestamp, the upper-case method, the path, then the query string or the JSON body. The result is written in base64.
   - A parameter object with exactly one key whose value is an array is a batch: each row is signed on its own.
2. **Order endpoints** (`src/rest/clients/orders.client.ts`, `src/interfaces/requests/rest/create-order.request.ts`).
   - For each call, the model records the method, the path it signs, the signing mode, the path it requests and where the data goes.
   - Query parameters go on the wire as axios's serializer writes them: a null parameter is left out, an array becomes `key[]` pairs, an object its JSON.
   - A server that rebuilds the message from the request it received either agrees with the signed message or does not. The model proves which for every endpoint whose query parameters are strings, numbers or booleans, and that a null `max_level` breaks agreement.
   - Order validation is modelled too.
3. **On-chain provisioning** (`src/smart-contract/clients/asset-manager/asset-manager.client.ts`, `src/smart-contract/index.ts`, `src/smart-contract/asset-manager.client.ts`).
   - Each step reads a contract predicate and writes only when it is false: account, orderly-key announcement, trading key.
   - The contract is a `Chain.Contract` object. It holds the three flags, the registered trading key, the storage figures, the methods that throw, and a log of every call.
   - Each client method is proved against a pure function of the contract state. The protocol properties are lemmas about those functions: step order, no write when the predicate holds, a second run writes nothing, an existing trading key is never replaced.
4. **WebSocket managers** (`src/ws/public.ts`, `src/ws/private.ts`).
   - A socket is a ready state plus the log of frames sent.
   - The subscription `Set` is an insertion-ordered list without repeats.
   - The ping interval is a table of timer handles.
   - `onopen`, `onclose` and interval ticks are methods the environment calls.

Cryptographic primitives and serialisers are fields of an `External.Lib` value passed as a parameter:
- UTF-8 encoding, Keccak-256, ECDSA signing, Ed25519 signing and verification;
- JSON string quoting and form escaping.

Nothing is assumed about these functions beyond their types. The Ed25519 verification lemmas require `KeysMatch`, which says that signatures by the secret verify under the public key.

The clock is a parameter `now`, and `Headers.Timestamp(now)` is its decimal text. Base64, hex rendering, `handleZero`, the key sort and `String.prototype.replace` are written out concretely. Base64 has a decoder and a round-trip proof.

## Model

| member | source | states |
|---|---|---|
| Text.Upper | src/rest/utils/generateHeaders.ts:21 | `method.toUpperCase()` on the ASCII method names the SDK passes (GET, POST, DELETE): the length is kept, and `Text.UpperKeeps` shows an upper-case method is unchanged |
| Headers.OrderlyMessage | src/rest/utils/generateHeaders.ts:19-24 | timestamp, upper-cased method, path, then either `?` and the query string or the JSON body of a non-empty object; `QueryModeMessage` and `BodyModeMessage` state the two modes |
| Values.JsonNumberField | src/rest/utils/generateHeaders.ts:23 | `JSON.stringify` writes a finite number as its text and NaN, Infinity or -Infinity as `null` |
| Headers.NonFiniteSignedAsNull | src/rest/utils/generateHeaders.ts:19-24 | a body-mode message whose parameter is NaN or infinite signs that parameter as `null`, as `create({..., order_quantity: NaN})` does |
| Headers.GetHeaders | src/rest/utils/generateHeaders.ts:8-39 | the header object of a signed request; `GetHeadersContents` states its entries |
| Headers.TradingMessage | src/rest/utils/generateHeaders.ts:104-107 | the object's `key=value` pairs in sorted key order joined by `&`; `TradingMessagePermutation` proves it does not depend on field order |
| Headers.SignedPost | src/rest/utils/generateHeaders.ts:41-166 | the headers and request data of a signed write, batch rows signed one by one; `GeneratePostHeadersAndRequestData` and `SignEachRow` state them |
| Headers.QueryModeMessage | src/rest/utils/generateHeaders.ts:19-24 | in query mode the message is timestamp, upper-case method, path, `?`, then the URL-encoded pairs in the parameters' own key order (no sorting) |
| Headers.BodyModeMessage | src/rest/utils/generateHeaders.ts:19-24 | in body mode no `?` is added: a parameter object with a key puts its JSON right after the path, and the message is exactly timestamp+METHOD+path iff the parameters are null or have no key |
| Headers.GetHeadersContents | src/rest/utils/generateHeaders.ts:17-38 | the read headers are exactly the five names, with no trading key; the timestamp header is the timestamp of the signed message; account id and key are copied unchanged; the signature decodes to the Ed25519 signature of the message's UTF-8 bytes |
| Sorting.SortSorted | src/rest/utils/generateHeaders.ts:58-59 | `Object.keys(o).sort()` gives a sorted permutation of the keys |
| Sorting.SortPermutationInvariant | src/rest/utils/generateHeaders.ts:104-105 | sorting two permutations of the same keys gives the same sequence |
| Headers.TradingMessagePermutation | src/rest/utils/generateHeaders.ts:104-107 | the trading-key message of an object does not depend on the order of its keys |
| Values.WithFieldSets | src/rest/utils/generateHeaders.ts:115-118 | after `{...o, k: v}` key k holds v, and the keys are o's keys with k appended when it is new |
| Values.WithoutWithField | src/rest/utils/generateHeaders.ts:115-118 | removing a key that was just added to an object without it gives the object back |
| Headers.SignRowVerifies | src/rest/utils/generateHeaders.ts:58-70 | a signed row is the row plus a trailing `signature` key; removing that key gives the row back; the signature parses to the ECDSA signature of the Keccak-256 digest of the message of the unsigned row |
| Headers.SignEachRow | src/rest/utils/generateHeaders.ts:54-73 | the loop returns each input row signed, in the same order and the same number |
| Headers.SignedPostData | src/rest/utils/generateHeaders.ts:52-53 | the batch branch is taken iff the parameters have exactly one key and its value is an array; the batch rows are the signed input rows; a single request is the signed object |
| Headers.BatchIgnoresQueryFlag | src/rest/utils/generateHeaders.ts:75-82 | the batch message is the body-mode message of `{key: signedRows}` whatever `includeQuery` says |
| Headers.SingleBodyNeverEmpty | src/rest/utils/generateHeaders.ts:115-127 | in body mode the single message always carries the JSON of the signed object, which includes `signature` |
| Headers.BatchHeadersContents | src/rest/utils/generateHeaders.ts:90-100 | the batch headers are exactly the six names, each holding its argument |
| Headers.SingleHeadersContents | src/rest/utils/generateHeaders.ts:152-162 | the single headers are exactly the nine names, each holding its argument |
| Headers.SignedPostHeaders | src/rest/utils/generateHeaders.ts:90-100 | both branches: content type JSON for POST and PUT, form-encoded for every other method; timestamp of the signed message; ids copied; `orderly-trading-key` is the trading public key |
| Headers.SignedPostSignature | src/rest/utils/generateHeaders.ts:120-133 | the orderly signature decodes to the Ed25519 signature of the outer message built from the signed request data |
| Headers.GeneratePostHeadersAndRequestData | src/rest/utils/generateHeaders.ts:41-166 | the two branches return exactly the headers and request data of `SignedPost`, about which the lemmas above are proved |
| OrderSignature.SignMessageByTradingKey | src/rest/utils/order.signature.secp256k1.ts:39-49 | the ECDSA signature of the message's Keccak-256 digest, written as r and s in 64 hex digits each, then "0" and the recovery parameter; `TradingSignatureParses` proves it is 130 characters that parse back to that signature |
| OrderSignature.SignPostRequestByOrderlyKey | src/rest/utils/order.signature.secp256k1.ts:51-55 | the base64 text of the Ed25519 signature of the message bytes; `OrderlySignatureDecodes` proves it decodes back to that signature |
| OrderSignature.HandleZero | src/rest/utils/order.signature.secp256k1.ts:31-37 | a text shorter than 64 becomes exactly 64 long with only '0's in front of it; a longer text is unchanged; the original is always the suffix |
| OrderSignature.HandleZeroIdempotent | src/rest/utils/order.signature.secp256k1.ts:31-37 | padding twice is padding once |
| OrderSignature.HandleZeroValue | src/rest/utils/order.signature.secp256k1.ts:31-35 | padding a hex number keeps it hex and keeps its value |
| OrderSignature.WordValue | src/rest/utils/order.signature.secp256k1.ts:44-46 | a number below 2^256 written as `handleZero(n.toJSON())` is exactly 64 hex digits reading back as n |
| OrderSignature.TradingSignatureParses | src/rest/utils/order.signature.secp256k1.ts:39-49 | the trading signature is 130 characters, character 128 is '0', and it parses back to r, s and the recovery parameter of the ECDSA signature over the Keccak-256 digest of the message |
| Base64.Encode | src/rest/utils/order.signature.secp256k1.ts:54 | `Buffer.toString('base64')`: four characters per started group of three bytes, padded with `=`; `DecodeEncode` proves it decodes back |
| Base64.DecodeEncode | src/rest/utils/order.signature.secp256k1.ts:54 | decoding the base64 text of bytes gives the bytes back |
| OrderSignature.OrderlySignatureDecodes | src/rest/utils/order.signature.secp256k1.ts:51-55 | the orderly signature is 88 base64 characters that decode to the Ed25519 signature of the message |
| OrderSignature.SignedRequestVerifies | src/rest/utils/order.signature.secp256k1.ts:51-55 | with a matching key pair, the orderly signature verifies under the orderly public key |
| Orders.CreatePlan | src/rest/clients/orders.client.ts:106-119 | create signs `POST /v1/order` in body mode and posts the signed data to `/order`; `CreateConsistent` proves the server rebuilds the signed message |
| Orders.CreateBatchPlan | src/rest/clients/orders.client.ts:150-166 | createBatch signs `POST /v1/batch-order` in body mode and posts the signed rows; `CreateBatchConsistent` proves the server rebuilds the signed message for a batch of orders |
| Orders.CancelBatchPlan | src/rest/clients/orders.client.ts:250-265 | cancelBatch as written: it signs `/v1/order` and requests `/v1/orders` (see Findings) |
| Orders.GetOrdersPlan | src/rest/clients/orders.client.ts:341-354 | getOrders signs `GET /v1/orders` with the query string and requests the same url; `GetOrdersConsistent` proves the server rebuilds the signed message |
| Orders.GetOrderbookPlan | src/rest/clients/orders.client.ts:382-399 | getOrderbook signs and requests `/v1/orderbook/<symbol>` with `max_level`, 100 by default; `GetOrderbookConsistent` proves the server rebuilds the signed message |
| Orders.SignedHeadersContents | src/rest/utils/generateHeaders.ts:32-38 | the headers of any call carry the timestamp, the orderly key, and the signature of the message the client built |
| Orders.ReadMessagesAgree | src/rest/utils/generateHeaders.ts:19-24 | for a consistent read, the message a server rebuilds from the request equals the signed message |
| Orders.WriteMessagesAgree | src/rest/utils/generateHeaders.ts:122-127 | for a consistent write, in query or body mode and single or batch, the rebuilt message equals the signed message |
| Orders.ConsistentMessagesAgree | src/rest/utils/generateHeaders.ts:19-24 | for every consistent call, the rebuilt message equals the signed message |
| Orders.ConsistentAccepted | src/rest/utils/generateHeaders.ts:28-30 | with a matching orderly key pair, the request of a consistent call, whose query parameters axios sends as signed, is accepted |
| Orders.QueryMessagesDiffer | src/rest/utils/generateHeaders.ts:125 | a query-mode write whose requested path does not continue as signed path + `?` is rebuilt into a different message |
| Orders.UnsignedReadMessages | src/rest/utils/generateHeaders.ts:22-23 | a read with null parameters in body mode is rebuilt into the signed message iff it requests the path it signed |
| Orders.CreateConsistent | src/rest/clients/orders.client.ts:106-119 | create signs POST `/v1/order` in body mode and posts the signed data to `/v1/order` |
| Orders.CreateBatchConsistent | src/rest/clients/orders.client.ts:150-166 | createBatch signs POST `/v1/batch-order` and posts `{orders: signedRows}` to it, as signed when the batch key is `orders` |
| Orders.CancelPlan | src/rest/clients/orders.client.ts:196-220 | cancel fails with the missing-id error iff both ids are falsy; otherwise it signs and requests `/v1/client/order` when `client_order_id` is truthy, else `/v1/order` |
| Orders.CancelConsistent | src/rest/clients/orders.client.ts:200-220 | with an id and scalar parameters, cancel signs in query mode exactly what axios sends as query parameters |
| Orders.CancelBatchMessagesDiffer | src/rest/clients/orders.client.ts:250-265 | cancelBatch as written signs `/v1/order` but requests `/v1/orders`, so the rebuilt message always differs from the signed one |
| Orders.CancelBatchCorrectedConsistent | src/rest/clients/orders.client.ts:250-265 | signing `/v1/orders` instead makes cancelBatch consistent for scalar parameters |
| Orders.GetOrderPlan | src/rest/clients/orders.client.ts:295-311 | getOrder fails with the missing-id error iff both ids are falsy; otherwise it requests `/v1/client/order/<cid>` when `client_order_id` is truthy, else `/v1/order/<oid>` |
| Orders.GetOrderByIdConsistent | src/rest/clients/orders.client.ts:299-311 | with only an order id, getOrder signs the path it requests |
| Orders.GetOrderByClientIdMessagesDiffer | src/rest/clients/orders.client.ts:299-311 | with a client order id, getOrder signs `/v1/order/...` but requests `/v1/client/order/...`, so the messages always differ |
| Orders.GetOrderPlanCorrected | src/rest/clients/orders.client.ts:295-311 | the corrected getOrder keeps the same error condition and requested path |
| Orders.GetOrderCorrectedConsistent | src/rest/clients/orders.client.ts:295-311 | the corrected getOrder, which signs the url it requests, is consistent for every request with an id |
| Orders.GetOrdersConsistent | src/rest/clients/orders.client.ts:341-354 | with scalar parameters, getOrders signs `/v1/orders` in query mode with exactly the parameters axios sends |
| Orders.GetOrderbookConsistent | src/rest/clients/orders.client.ts:382-399 | for an absent or scalar max_level, getOrderbook signs `{max_level}` in query mode on `/v1/orderbook/<symbol>`, as axios sends it; max_level defaults to 100 |
| Orders.GetOrderbookNullMessagesDiffer | src/rest/clients/orders.client.ts:382-399 | a null max_level is signed as `max_level=null` but left off the url, so the rebuilt message never matches |
| Orders.AxiosParams | src/rest/clients/orders.client.ts:216-219 | the query parameters axios puts on the url for the `params` a call passes |
| Orders.AxiosPairsPlain | src/rest/clients/orders.client.ts:351-354 | parameters that are all strings, numbers or booleans reach the server exactly as given |
| Orders.SignRowPlain | src/rest/clients/orders.client.ts:200-219 | the signed object of scalar parameters is scalar, so cancel's query reaches the server as signed |
| Validation.OrderTypeOf | src/interfaces/requests/rest/create-order.request.ts:50 | `OrderType[t]` is defined only for a string that names an order type, and is then that string |
| Validation.ValidateCreateOrderRequest | src/interfaces/requests/rest/create-order.request.ts:41-56 | success iff no errors; the price error iff the price is falsy and the type is not MARKET; the amount error iff the amount is falsy and the type is none of BID, ASK, MARKET; at most two errors, price first |
| Validation.MarketOrdersValid | src/interfaces/requests/rest/create-order.request.ts:44-53 | a MARKET order always passes |
| Validation.PriceRequiredOutsideMarket | src/interfaces/requests/rest/create-order.request.ts:44-46 | outside MARKET the price error appears iff the price is falsy |
| Base64.Btoa | src/smart-contract/index.ts:45 | `btoa` succeeds iff every character is below 256 |
| TradingKey.GenerateTradingKey | src/smart-contract/index.ts:36-48 | the private hex, the whole public hex, the public hex with its first "04" removed, and the normalization of that stripped hex; `GenerateTradingKeyShape` states the shape |
| TradingKey.Normalize | src/smart-contract/index.ts:45 | `btoa` of the hex text of the Keccak-256 digest; `NormalizeShape` proves it is 88 characters that decode to that hex text |
| TradingKey.NormalizeShape | src/smart-contract/index.ts:45 | the normalized key is 88 base64 characters that decode to the 64-character hex text of the Keccak-256 digest, not to the digest bytes |
| TradingKey.StripUncompressed | src/smart-contract/index.ts:39 | on an uncompressed public key, `replace('04', '')` removes exactly the prefix and leaves 128 digits |
| TradingKey.GenerateTradingKeyShape | src/smart-contract/index.ts:36-48 | generateTradingKey returns the full public hex as `publicKey`, hashes the stripped hex, and the normalized key is 88 characters |
| Chain.Contract.Invoke | src/smart-contract/clients/asset-manager/asset-manager.client.ts:108-117 | a contract call answers from the state before it, applies its effect, and is appended to the log |
| AssetManager.CreateUserAccountStep | src/smart-contract/clients/asset-manager/asset-manager.client.ts:103-123 | ask `user_account_exists` for the configured account and make a registration-only storage deposit exactly when it answers false |
| AssetManager.AnnounceKeyStep | src/smart-contract/clients/asset-manager/asset-manager.client.ts:125-144 | ask `is_orderly_key_announced` and call `user_announce_key` exactly when it answers false |
| AssetManager.SetTradingKeyStep | src/smart-contract/clients/asset-manager/asset-manager.client.ts:146-191 | with a key set, return `get_user_trading_key`; otherwise register the new key and return it |
| AssetManager.ConnectSpec | src/smart-contract/clients/asset-manager/asset-manager.client.ts:199-215 | the three steps in order, stopping at the first failure, resolving to the trading key |
| AssetManager.CreateUserAccountWrites | src/smart-contract/clients/asset-manager/asset-manager.client.ts:108-119 | createUserAccount writes `storage_deposit(registration_only, 0.005 NEAR)` exactly when `user_account_exists` answers false, and nothing otherwise |
| AssetManager.AnnounceKeyWrites | src/smart-contract/clients/asset-manager/asset-manager.client.ts:130-141 | announceKey writes `user_announce_key` exactly when `is_orderly_key_announced` answers false |
| AssetManager.SetTradingKeyWrites | src/smart-contract/clients/asset-manager/asset-manager.client.ts:151-184 | setTradingKey registers the new key exactly when `is_trading_key_set` answers false |
| AssetManager.CreateUserAccountFacts | src/smart-contract/clients/asset-manager/asset-manager.client.ts:103-123 | the step replays to the state it reports, changes only the account flag, leaves the account in place when it finishes, and is a pure read when the account exists |
| AssetManager.AnnounceKeyFacts | src/smart-contract/clients/asset-manager/asset-manager.client.ts:125-144 | the step replays to its state, changes only the announcement flag, leaves the key announced when it finishes, and is a pure read when already announced |
| AssetManager.SetTradingKeyFacts | src/smart-contract/clients/asset-manager/asset-manager.client.ts:146-191 | a key already set is returned from `get_user_trading_key` and never replaced; otherwise the returned key is exactly the registered, submitted one |
| AssetManager.ConnectWritesInOrder | src/smart-contract/clients/asset-manager/asset-manager.client.ts:206-210 | connect writes at most once per step, strictly in the order account, announcement, trading key |
| AssetManager.ConnectReplays | src/smart-contract/clients/asset-manager/asset-manager.client.ts:199-215 | replaying connect's calls on the contract gives the state connect reports |
| AssetManager.ConnectProvisions | src/smart-contract/clients/asset-manager/asset-manager.client.ts:199-215 | a connect that resolves leaves the account registered, the key announced and a trading key set, and it resolves to the registered key |
| AssetManager.ConnectWhenProvisioned | src/smart-contract/clients/asset-manager/asset-manager.client.ts:112-161 | on a fully provisioned contract connect writes nothing, changes nothing and returns the stored key |
| AssetManager.SecondConnectNoWrites | src/smart-contract/clients/asset-manager/asset-manager.client.ts:199-215 | a second connect after one that resolved writes nothing, and whenever it resolves it resolves to the same key |
| AssetManager.StorageDepositCall | src/smart-contract/clients/asset-manager/asset-manager.client.ts:244-251 | storage.deposit is a non-registration deposit of the amount for the client's own account |
| AssetManager.StorageWithdrawCall | src/smart-contract/clients/asset-manager/asset-manager.client.ts:252-265 | storage.withdraw carries the amount iff it is truthy, and always attaches one yoctoNEAR |
| AssetManager.StorageUnregisterCall | src/smart-contract/clients/asset-manager/asset-manager.client.ts:273 | storage.unregister attaches one yoctoNEAR and ignores `force` |
| AssetManager.Client.constructor | src/smart-contract/clients/asset-manager/asset-manager.client.ts:91-100 | the client keeps its account, orderly key, signing account and contract |
| AssetManager.Client.CreateUserAccount | src/smart-contract/clients/asset-manager/asset-manager.client.ts:103-123 | the method makes the calls of `CreateUserAccountStep` and leaves the contract in its post state |
| AssetManager.Client.AnnounceKey | src/smart-contract/clients/asset-manager/asset-manager.client.ts:125-144 | the method makes the calls of `AnnounceKeyStep`, checking under the signing account |
| AssetManager.Client.SetTradingKey | src/smart-contract/clients/asset-manager/asset-manager.client.ts:146-191 | the method makes the calls of `SetTradingKeyStep` for the normalized whole public hex, and returns its result |
| AssetManager.Client.Connect | src/smart-contract/clients/asset-manager/asset-manager.client.ts:199-215 | the method makes the calls of `ConnectSpec`, leaves its post state and returns its result |
| AssetManager.Client.Deposit | src/smart-contract/clients/asset-manager/asset-manager.client.ts:244-251 | one `StorageDepositCall` on the contract |
| AssetManager.Client.Withdraw | src/smart-contract/clients/asset-manager/asset-manager.client.ts:252-265 | one `StorageWithdrawCall` on the contract |
| AssetManager.Client.Unregister | src/smart-contract/clients/asset-manager/asset-manager.client.ts:273 | one `StorageUnregisterCall` on the contract |
| LegacyAssetManager.CreateAccountStep | src/smart-contract/asset-manager.client.ts:57-65 | ask `user_account_exists` for the signing account and call `create_user_account` exactly when it answers false; `CreateAccountFacts` states it |
| LegacyAssetManager.SetKeyStep | src/smart-contract/asset-manager.client.ts:80-108 | setTradingKey with the private key read as hex (the corrected step, see Findings); `SetKeyFacts` states it |
| LegacyAssetManager.SetKeyStepAsWritten | src/smart-contract/asset-manager.client.ts:103-107 | setTradingKey as written: a run that registers a key then rejects |
| LegacyAssetManager.SetKeyAsWrittenRegistersThenFails | src/smart-contract/asset-manager.client.ts:97-107 | as written, setTradingKey never resolves to a key; when no key is set and the registration goes through, the key is registered and the call still rejects |
| LegacyAssetManager.CreateAccountFacts | src/smart-contract/asset-manager.client.ts:57-65 | the check uses the signing account; `create_user_account` is the only write and happens exactly when the account does not exist; the step replays to its state |
| LegacyAssetManager.SetKeyFacts | src/smart-contract/asset-manager.client.ts:80-108 | with a key set it returns nothing and writes nothing; otherwise the corrected step returns the whole public hex, the private hex and the submitted, now registered, normalized key (see Findings for the code as written) |
| LegacyAssetManager.DepositCall | src/smart-contract/asset-manager.client.ts:110-120 | `ft_transfer_call{amount, receiver_id, msg}` iff a non-empty receiver is given, else `user_deposit_native_token{amount}` |
| LegacyAssetManager.Client.constructor | src/smart-contract/asset-manager.client.ts:31-55 | the client keeps its signing account, orderly key and contract |
| LegacyAssetManager.Client.CreateUserAccount | src/smart-contract/asset-manager.client.ts:57-65 | the method makes the calls of `CreateAccountStep` |
| LegacyAssetManager.Client.AnnounceKey | src/smart-contract/asset-manager.client.ts:67-78 | the method makes the calls of `AnnounceKeyStep` for the signing account and the orderly key |
| LegacyAssetManager.Client.SetTradingKey | src/smart-contract/asset-manager.client.ts:80-108 | the method makes the calls of the corrected `SetKeyStep` and returns its result |
| LegacyAssetManager.Client.Deposit | src/smart-contract/asset-manager.client.ts:110-120 | one `DepositCall` on the contract |
| SmartContract.AccountPhase | src/smart-contract/index.ts:76-89 | `user_account_exists`, then a registration request to the wallet when it answers false; `AccountPhaseFacts` states it |
| SmartContract.TopUpOrAnnounce | src/smart-contract/index.ts:98-124 | the try block: the three storage figures, then a top-up request on a shortfall or else the announcement, any exception swallowed; `TopUpOrAnnounceFacts` and `TopUpOrAnnounceWrites` state it |
| SmartContract.AnnouncePhase | src/smart-contract/index.ts:91-125 | `is_orderly_key_announced`, then the try block when it answers false; `AnnouncePhaseFacts` and `AnnouncePhaseWrites` state it |
| SmartContract.TradingKeyPhase | src/smart-contract/index.ts:127-163 | `is_trading_key_set`, then register the generated key and store it in localStorage when it answers false; `TradingKeyPhaseFacts` states it |
| SmartContract.ProvisionSpec | src/smart-contract/index.ts:76-163 | the account, announcement and trading-key phases in order, an escaping exception stopping them; `ProvisionReplays`, `ProvisionWrites` and `ProvisionRequests` state it |
| SmartContract.AnnounceAsWrittenNeverAnnounces | src/smart-contract/index.ts:98-124 | with the contract object built from the asset-manager method list, the try block's first read throws: the phase neither requests a top-up nor announces, and still lets connect go on |
| SmartContract.AccountPhaseFacts | src/smart-contract/index.ts:76-89 | the account check only reads, and it asks the wallet for a registration deposit exactly when the account does not exist |
| SmartContract.TopUpOrAnnounceFacts | src/smart-contract/index.ts:98-124 | the try block always lets connect go on and leaves the trading key alone; when the contract exposes the storage views and the figures are read, it requests a top-up exactly when usage + cost − total > 0 (see Findings for the contract as built) |
| SmartContract.TopUpOrAnnounceWrites | src/smart-contract/index.ts:98-124 | the try block replays to its state, and its only possible write is the announcement, made exactly when the figures show no shortfall |
| SmartContract.AnnouncePhaseFacts | src/smart-contract/index.ts:91-125 | the phase fails only when the announcement check throws; an announced key leads to no further call |
| SmartContract.AnnouncePhaseWrites | src/smart-contract/index.ts:91-125 | the phase replays to its state; it announces exactly when the key is not announced, the storage views answer and there is no shortfall (see Findings for the contract as built) |
| SmartContract.TradingKeyPhaseWrites | src/smart-contract/index.ts:127-154 | a trading key is registered only when none is set, and it is the normalized stripped key |
| SmartContract.TradingKeyPhaseReplays | src/smart-contract/index.ts:127-163 | the trading-key phase replays to the state it reports |
| SmartContract.TradingKeyPhaseFacts | src/smart-contract/index.ts:127-163 | after a registration localStorage holds the stripped public hex and the private hex; with a key already set nothing changes |
| SmartContract.ProvisionReplays | src/smart-contract/index.ts:76-163 | provisioning replays to the state it reports |
| SmartContract.ProvisionWrites | src/smart-contract/index.ts:76-163 | provisioning writes only the due announcement and then the due key registration, never the account |
| SmartContract.ProvisionRequests | src/smart-contract/index.ts:76-125 | the wallet is asked for a registration iff the account does not exist, and for a top-up iff the announcement is due, the storage views answer and there is a shortfall, in that order |
| SmartContract.ProvisionStorage | src/smart-contract/index.ts:127-163 | provisioning reaches the trading-key check whenever the first two checks answer; when it finishes a key is set and localStorage holds the new credentials, or is unchanged when a key was already set |
| SmartContract.CredentialsReadBack | src/smart-contract/index.ts:156-173 | the trading credentials in the SDK options are always what localStorage holds, because `setItem` returns undefined |
| SmartContract.SdkConnectKeepsProvisionedKey | src/smart-contract/index.ts:176-181 | the asset-manager client's own connect after provisioning never replaces the provisioned trading key |
| SmartContract.Client.constructor | src/smart-contract/index.ts:32-34 | a new client has no wallet requests, no options and no asset-manager client |
| SmartContract.Client.IsSignedIn | src/smart-contract/index.ts:213-215 | true iff the stored `IS_LOGINED_SDK` item equals `'true'` |
| SmartContract.Client.SignOut | src/smart-contract/index.ts:217-220 | the stored flag becomes `'false'`, so the client is no longer signed in |
| SmartContract.Client.CheckAccount | src/smart-contract/index.ts:76-89 | the method makes the call and request of `AccountPhase` |
| SmartContract.Client.TopUpOrAnnounceKey | src/smart-contract/index.ts:98-124 | the method makes the calls and requests of `TopUpOrAnnounce` |
| SmartContract.Client.AnnounceKey | src/smart-contract/index.ts:91-125 | the method makes the calls and requests of `AnnouncePhase` |
| SmartContract.Client.RegisterTradingKey | src/smart-contract/index.ts:127-163 | the method makes the calls of `TradingKeyPhase` and writes its localStorage |
| SmartContract.Client.ProvisionKeys | src/smart-contract/index.ts:91-163 | the announcement phase, then the trading-key phase unless an exception escaped |
| SmartContract.Client.Provision | src/smart-contract/index.ts:76-163 | the method makes the calls, requests and storage of `ProvisionSpec` |
| SmartContract.Client.StartSdk | src/smart-contract/index.ts:165-183 | the options are read from localStorage; the asset-manager connect runs; the login flag is set only when it resolves |
| SmartContract.Client.Connect | src/smart-contract/index.ts:50-185 | nothing happens unless the wallet is signed in; otherwise provisioning, then the SDK start-up |
| WsSession.EndpointUrl | src/ws/public.ts:13 | the URL is the network's endpoint followed by the account id (`undefined` for an unknown network) and always ends with the account id |
| WsSession.Frames | src/ws/public.ts:26-28 | one frame per stored subscription, in order, each its JSON |
| WsSession.PongFrame | src/ws/public.ts:81 | the keep-alive frame is `{"event":"pong"}` |
| WsSession.SetAdd | src/ws/public.ts:63 | `Set.add` appends a new member and leaves the set unchanged for a present one |
| WsSession.SetAddFacts | src/ws/public.ts:63 | adding keeps the set free of repeats and holds exactly the old members and the new one |
| WsSession.SetDeleteFacts | src/ws/public.ts:70 | deleting keeps the set free of repeats and holds exactly the old members other than the deleted one |
| WsSession.SetDeleteAbsent | src/ws/public.ts:70 | deleting a member that is not held changes nothing |
| WsSession.SetDeleteAdd | src/ws/public.ts:63-70 | adding then deleting a subscription is the same as deleting it alone |
| WsSession.Started | src/ws/public.ts:78-87 | startPing leaves a handle |
| WsSession.Stopped | src/ws/public.ts:89-95 | stopPing leaves no handle |
| WsSession.StartedValid | src/ws/public.ts:78-87 | a started interval has a fresh id that becomes live, and the timer table stays valid |
| WsSession.StoppedValid | src/ws/public.ts:89-95 | stopping ends exactly the interval the handle named and starts none |
| WsSession.StoppedIdempotent | src/ws/public.ts:89-95 | a second stopPing changes nothing |
| WsSession.StartThenStop | src/ws/public.ts:78-95 | starting then stopping ends exactly the interval just started |
| WsSession.RestartLeavesInterval | src/ws/public.ts:78-79 | starting ping while an interval runs leaves that interval running after any number of stops |
| WsPublic.WebSocketManager.constructor | src/ws/public.ts:12-18 | URL from the endpoint table and account id, no socket, no subscriptions, interval 10000, no timer |
| WsPublic.WebSocketManager.Connect | src/ws/public.ts:20-48 | a fresh connecting socket to the URL with its close handler attached; subscriptions and timers unchanged |
| WsPublic.WebSocketManager.OnOpen | src/ws/public.ts:23-30 | the open event of any socket this manager connected: when the current handle is open every stored subscription is re-sent on it in order, otherwise nothing is sent; the set is unchanged, ping starts in any case, and a replaced socket gets no frame |
| WsPublic.WebSocketManager.OnClose | src/ws/public.ts:40-43 | the socket is closed and the ping timer stopped |
| WsPublic.WebSocketManager.Disconnect | src/ws/public.ts:50-57 | without a socket nothing changes; otherwise the socket starts closing, the handle becomes null and ping stops |
| WsPublic.WebSocketManager.SendSubscription | src/ws/public.ts:59-67 | on an open socket the subscription's JSON is sent and it is added to the set; otherwise nothing is sent and the set is unchanged |
| WsPublic.WebSocketManager.Unsubscribe | src/ws/public.ts:69-72 | the subscription is removed from the set and nothing is sent |
| WsPublic.WebSocketManager.StartPing | src/ws/public.ts:78-87 | the timers become `Started` of the old ones |
| WsPublic.WebSocketManager.StopPing | src/ws/public.ts:89-95 | the timers become `Stopped` of the old ones |
| WsPublic.WebSocketManager.Tick | src/ws/public.ts:79-86 | a tick sends pong iff the socket is open, sends nothing on another socket, and fails with a null socket |
| WsPrivate.AuthMessage | src/ws/private.ts:46-54 | the auth payload: id, event and the params with the orderly key, the sign and the timestamp; `AuthMessageShape` states it |
| WsPrivate.AuthMessageShape | src/ws/private.ts:36-54 | the auth payload is `{id: "123r", event: "auth", params}` in that key order; params carries the public orderly key, the timestamp text, and a sign that decodes to the Ed25519 signature of exactly that timestamp text |
| WsPrivate.AuthMessageVerifies | src/ws/private.ts:36-56 | with a matching key pair, the auth frame's sign verifies under its own orderly_key for its own timestamp |
| WsPrivate.WebSocketManager.constructor | src/ws/private.ts:16-22 | URL from the private endpoint table and the options' account id, no socket, no subscriptions, interval 10000, no timer |
| WsPrivate.WebSocketManager.ConnectPrivate | src/ws/private.ts:24-25 | a fresh connecting socket to the private URL, with no close handler yet |
| WsPrivate.WebSocketManager.OnOpen | src/ws/private.ts:27-76 | the open event of any socket this manager connected: on an open current handle the subscriptions are re-sent in order, then the auth frame; a null or connecting handle makes the auth send throw, so ping does not start and no close handler is attached; otherwise ping starts and the close handler goes on the current handle, never on a replaced socket |
| WsPrivate.WebSocketManager.OnClose | src/ws/private.ts:68-71 | the socket is closed; ping stops only when the open handler had attached the close handler |
| WsPrivate.WebSocketManager.DisconnectPrivate | src/ws/private.ts:79-86 | without a socket nothing changes; otherwise the socket starts closing, the handle becomes null and ping stops |
| WsPrivate.WebSocketManager.SendPrivateSubscription | src/ws/private.ts:88-96 | on an open socket the subscription is sent and added to the set; otherwise nothing changes |
| WsPrivate.WebSocketManager.UnsubscribePrivate | src/ws/private.ts:98-101 | the subscription is removed and nothing is sent |
| WsPrivate.WebSocketManager.StartPingPrivate | src/ws/private.ts:107-116 | the timers become `Started` of the old ones |
| WsPrivate.WebSocketManager.StopPingPrivate | src/ws/private.ts:118-124 | the timers become `Stopped` of the old ones |
| WsPrivate.WebSocketManager.Tick | src/ws/private.ts:108-115 | a tick sends pong iff the socket is open, and fails with a null socket |

## Left out

- Cryptography:
  - the maths of Keccak-256, secp256k1 ECDSA and Ed25519 (section 5.1.6 of RFC 8032) is not modelled;
  - these are functions of the `Lib` parameter, as are UTF-8 encoding, JSON string quoting and form escaping;
  - key-pair parsing (`getOrderlyKeyPair`, `getTradingKeyPair`) is folded into those functions, which take the secret text.
- Randomness: `ec.genKeyPair()` is not modelled; the generated key pair is a parameter (`kp`, `kp2`).
- Numbers: only their JavaScript text is modelled; floating point and `toStorageResponse`'s `parseFloat` are not.
- Amounts: NEAR amounts are whole yoctoNEAR `nat`s; the asset manager's `parseNearAmount(amount.toString())` of a JavaScript number is taken as already done.
- HTTP: axios and `fetch` transport are not modelled, nor error rethrowing as `{code, message}`, logging and `console` output. A request is the `Orders.HttpRequest` value it would send.
- Base URL joining: axios's joining of the instance base URL with a relative path is modelled for the `/v1` base only (`Orders.InstancePath`).
- Wallet and NEAR connection:
  - wallet start-up, the modal, NEAR connection set-up and the `keyStore` lookup are not modelled;
  - the wallet's answer to `isSignedIn` and the stored key pair are parameters;
  - `wallet.callMethod` transactions are recorded as requests and not applied to the contract state in the model; the code does not await them, and any interleaving with the later reads is not modelled;
  - `walletRef.wallet.signOut()` is not modelled.
- Key file: `fs.writeFileSync` of the generated key material in the asset-manager client is not modelled.
- Endpoint tables: `src/enums` is not part of this model; `WsPublicUrl`, `WsPrivateUrl` and the API base URL are parameters.
- Message handlers: `onmessage`, `onerror`, `setMessageCallback` and `setPrivateMessageCallback` only hand data to foreign callbacks and are not modelled.
- Timers: `setInterval` scheduling is not modelled; a tick is the `Tick` method, called for a live interval id.
- Private `onopen`: it is modelled as one atomic step. The `await` between re-sending and the auth frame lets other events interleave, and the model does not capture that.
- Set identity: a JavaScript `Set` holds objects by identity, the model by value. Re-adding an equal but distinct subscription object adds it again in JavaScript and not in the model.
- Other REST clients: `public.client.ts`, `trade.client.ts` and `user.client.ts` are plain endpoint wrappers and are not modelled.
- Other contract wrappers: the faucet and fungible-token clients, and the asset manager's `deposit`, `withdraw`, `isTokenListed`, `isSymbolPairListed`, `getPossibleTokens` and `balance`, are one-call pass-throughs without logic and are not modelled.
- Legacy `withdraw`: the older client's `withdraw` is a one-call pass-through as well and is not modelled.
- Orders.AxiosParams: follows the params rule of axios 0.x (null left out, arrays as `key[]`, objects as JSON). axios 1.x writes a null parameter as an empty value and nests objects under bracketed keys; the axios version is not part of this model. For string, number and boolean parameters the two agree, and the consistency lemmas only cover those. URL escaping is not modelled: the server sees the decoded pairs.
- Query sorting: the query string of a read is not sorted; the code writes the parameters in their own key order, and so does the model.
- SmartContract.Client.StartSdk: the code passes four arguments to an `AssetManagerClient` constructor that takes two. The model builds the client with the wallet's account as both its configured account and its signing account, and with the client's own contract; as written no contract reaches the new client (see the next line), so its `connect` rejects and the login flag is never set.
- AssetManager.Client.constructor: the `super(...)` call at src/smart-contract/clients/asset-manager/asset-manager.client.ts:92-99 passes five arguments to a base constructor that takes six (src/interfaces/utils/generic-smart-contract-client.ts:15-22), so `managerContract` is undefined and `connect` rejects at its first contract call. The model gives the client a contract, so its `connect` and the steps behind it describe the client with a contract wired in.
- Text.Upper: upper-cases ASCII letters only, while `toUpperCase` maps all of Unicode and can lengthen a string ('ß' becomes 'SS'). The SDK only passes the method names GET, POST and DELETE.
- Sorting.LexLe: compares code points, while JavaScript's default sort compares UTF-16 code units; the two orders differ only between characters above U+FFFF and U+E000–U+FFFF, and the sorted keys are ASCII field names.
- LegacyAssetManager.SetKeyFacts: states the corrected step; the code as written rejects after registering the key (see Findings, `SetKeyAsWrittenRegistersThenFails`).
- LegacyAssetManager.Client.SetTradingKey: follows the corrected step, like `SetKeyFacts`.
- SmartContract.Client.Connect: `nearConnection.account(...)` and the construction of the REST, fungible-token and WebSocket clients are not modelled; only the options they receive are.
- WsPublic.WebSocketManager.OnOpen: `forEach` over a `Set` that `sendSubscription` adds to while iterating is modelled as iterating over a snapshot. The two agree because re-adding a present member changes nothing.

## Findings

| source | as written | input that shows it | evidently intended | confidence | as-written member | corrected member |
|---|---|---|---|---|---|---|
| src/rest/clients/orders.client.ts:250-265 | cancelBatch signs the path `/v1/order` but sends the request to `/v1/orders` | any cancelBatch call, e.g. `{symbol: "X"}` | sign the path that is requested, `/v1/orders` | not executed; assumes the server rebuilds the message from the requested path | Orders.CancelBatchMessagesDiffer | Orders.CancelBatchCorrectedConsistent |
| src/rest/clients/orders.client.ts:299-307 | getOrder with a `client_order_id` requests `client/order/<cid>` but signs `/v1/order/<oid or cid>` | `{client_order_id: "c1"}` | sign the url that is requested | not executed; assumes the server rebuilds the message from the requested path | Orders.GetOrderByClientIdMessagesDiffer | Orders.GetOrderCorrectedConsistent |
| src/smart-contract/asset-manager.client.ts:103-107 | the older client's setTradingKey returns `privateKey: keyPair.getPrivate().encode('hex')`; without an argument `getPrivate()` gives a bn.js number, which has no `encode`, so this throws after the key was registered | no trading key set and a successful `user_request_set_trading_key` | read the private key as `getPrivate('hex')` (as the other key paths do) and resolve to the key material | not executed; assumes bn.js numbers have no `encode` method | LegacyAssetManager.SetKeyAsWrittenRegistersThenFails | LegacyAssetManager.SetKeyFacts |
| src/smart-contract/index.ts:98-124 | the contract object is built from the asset-manager method list, which has neither `storage_cost_of_announce_key` nor `user_storage_usage`, so the try block's first call throws and the catch swallows it | any signed-in `connect` for an orderly key not yet announced | list the two storage views so that the top-up or the announcement happens | not executed; assumes a near-api-js contract only carries the methods it is built with | SmartContract.AnnounceAsWrittenNeverAnnounces | SmartContract.TopUpOrAnnounceWrites |

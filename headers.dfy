/**
 * Request signing (generateHeaders.ts): the orderly-key message and header map of a read
 * request, and, for a write, the per-object trading-key signatures wrapped in one
 * orderly-key signature over the whole request, for a single object or a batch of rows.
 */
module Headers {
  import opened Wrappers
  import opened Text
  import opened External
  import opened Values
  import Sorting
  import Base64
  import OrderSignature

  const FormContentType := "application/x-www-form-urlencoded"
  const JsonContentType := "application/json"

  /** The header names the builders write, spelled as on the wire by HeaderText. */
  datatype HeaderName =
    | Accept | JustCheck | AllowOrigin | ContentTypeUpper | ContentTypeLower
    | OrderlyTimestamp | OrderlyAccountId | OrderlyKey | OrderlyTradingKey | OrderlySignature

  function HeaderText(n: HeaderName): string {
    match n
    case Accept => "accept"
    case JustCheck => "just-check"
    case AllowOrigin => "access-control-allow-origin"
    case ContentTypeUpper => "Content-Type"
    case ContentTypeLower => "content-type"
    case OrderlyTimestamp => "orderly-timestamp"
    case OrderlyAccountId => "orderly-account-id"
    case OrderlyKey => "orderly-key"
    case OrderlyTradingKey => "orderly-trading-key"
    case OrderlySignature => "orderly-signature"
  }

  /** new Date().getTime().toString(), for the clock reading `now`. */
  function Timestamp(now: nat): string {
    Decimal(now)
  }

  /**
   * The object URLSearchParams reads: an absent object reads as an empty one, which is what
   * `new URLSearchParams(undefined)` gives. A `null` object (which a browser would serialize
   * as `null=`) is not modelled: the query-string callers always pass an object.
   */
  function OrEmpty(params: Option<Obj>): Obj {
    match params
    case Some(o) => o
    case None => Obj([])
  }

  /**
   * The orderly-key message: timestamp, upper-case method, the path, then either "?" and
   * the query string (query mode) or the JSON body when the parameters have a key (body mode).
   */
  function OrderlyMessage(lib: Lib, ts: string, verb: string, path: string, params: Option<Obj>, includeQuery: bool): string {
    ts + Upper(verb)
    + (if includeQuery then path + "?" + Form(lib, OrEmpty(params)) else path)
    + (if includeQuery then "" else if params.Some? && |Keys(params.value)| > 0 then JsonObj(lib, params.value) else "")
  }

  /** Query mode: the message is the path and the query string of the parameters in their own key order. */
  lemma QueryModeMessage(lib: Lib, ts: string, verb: string, path: string, params: Obj)
    ensures OrderlyMessage(lib, ts, verb, path, Some(params), true)
         == ts + Upper(verb) + path + "?" + Join("&", seq(|params.fields|, i requires 0 <= i < |params.fields| => FormPair(lib, params.fields[i])))
  {
  }

  /**
   * Body mode: no '?' is added; a parameter object with a key adds its JSON right after the
   * path, and an empty or absent one adds nothing.
   */
  lemma BodyModeMessage(lib: Lib, ts: string, verb: string, path: string, params: Option<Obj>)
    ensures var m := OrderlyMessage(lib, ts, verb, path, params, false);
      && ((params.None? || params.value.fields == []) <==> m == ts + Upper(verb) + path)
      && (params.Some? && params.value.fields != [] ==> m == ts + Upper(verb) + path + JsonObj(lib, params.value))
  {
    var m := OrderlyMessage(lib, ts, verb, path, params, false);
    if params.Some? && params.value.fields != [] {
      var j := JsonObj(lib, params.value);
      assert m == ts + Upper(verb) + path + j;
      assert |m| > |ts + Upper(verb) + path|;
    }
  }

  /** A body whose number is NaN or infinite is signed with that number written as null. */
  lemma NonFiniteSignedAsNull(lib: Lib, ts: string, verb: string, path: string, k: string, t: string)
    requires NonFinite(t)
    ensures OrderlyMessage(lib, ts, verb, path, Some(Obj([Field(k, Num(t))])), false)
         == ts + Upper(verb) + path + "{" + lib.jsonString(k) + ":null}"
  {
    JsonNumberField(lib, k, t);
  }

  /** generateGetHeaders: the five headers of a read request, signed with the orderly key. */
  function GetHeaders(lib: Lib, now: nat, verb: string, path: string, params: Option<Obj>,
                      orderlySecret: string, accountId: string, orderlyKey: string, includeQuery: bool): map<HeaderName, string>
  {
    var ts := Timestamp(now);
    var sign := OrderSignature.SignPostRequestByOrderlyKey(lib, orderlySecret, lib.utf8(OrderlyMessage(lib, ts, verb, path, params, includeQuery)));
    map[
      ContentTypeUpper := " " + FormContentType,
      OrderlyAccountId := accountId,
      OrderlyKey := orderlyKey,
      OrderlySignature := sign,
      OrderlyTimestamp := ts
    ]
  }

  /**
   * The read headers carry no trading key; the timestamp header is the timestamp of the signed
   * message; the ids are copied unchanged; the signature is the orderly key's over that message.
   */
  lemma GetHeadersContents(lib: Lib, now: nat, verb: string, path: string, params: Option<Obj>,
                           orderlySecret: string, accountId: string, orderlyKey: string, includeQuery: bool)
    ensures var h := GetHeaders(lib, now, verb, path, params, orderlySecret, accountId, orderlyKey, includeQuery);
      && h.Keys == {ContentTypeUpper, OrderlyAccountId, OrderlyKey, OrderlySignature, OrderlyTimestamp}
      && OrderlyTradingKey !in h
      && h[ContentTypeUpper] == " " + FormContentType
      && h[OrderlyAccountId] == accountId && h[OrderlyKey] == orderlyKey
      && h[OrderlyTimestamp] == Timestamp(now)
      && Base64.Decode(h[OrderlySignature])
         == Some(lib.ed25519Sign(orderlySecret, lib.utf8(OrderlyMessage(lib, Timestamp(now), verb, path, params, includeQuery))))
  {
    OrderSignature.OrderlySignatureDecodes(lib, orderlySecret, lib.utf8(OrderlyMessage(lib, Timestamp(now), verb, path, params, includeQuery)));
  }

  /** `${key}=${o[key]}` for a key of o. */
  function RenderPair(o: Obj, k: string): string {
    k + "=" + (match Get(o, k) case Some(v) => ToText(v) case None => "undefined")
  }

  /** The trading-key message: the object's keys sorted, each written key=value, joined by '&'. */
  function TradingMessage(o: Obj): string {
    var ks := Sorting.Sort(Keys(o));
    Join("&", seq(|ks|, i requires 0 <= i < |ks| => RenderPair(o, ks[i])))
  }

  /** The rendered pairs of two objects agree on keys whose values agree. */
  lemma RenderAgree(a: Obj, b: Obj, ks: seq<string>)
    requires forall i :: 0 <= i < |ks| ==> Get(a, ks[i]) == Get(b, ks[i])
    ensures seq(|ks|, i requires 0 <= i < |ks| => RenderPair(a, ks[i]))
         == seq(|ks|, i requires 0 <= i < |ks| => RenderPair(b, ks[i]))
  {
  }

  /** The trading-key message does not depend on the order of the object's keys. */
  lemma TradingMessagePermutation(a: Obj, b: Obj)
    requires DistinctKeys(a) && DistinctKeys(b) && multiset(a.fields) == multiset(b.fields)
    ensures TradingMessage(a) == TradingMessage(b)
  {
    PermutedKeys(a.fields, b.fields);
    Sorting.SortPermutationInvariant(Keys(a), Keys(b));
    var ks := Sorting.Sort(Keys(a));
    forall i | 0 <= i < |ks| ensures Get(a, ks[i]) == Get(b, ks[i]) {
      PermutedLookup(a.fields, b.fields, ks[i]);
    }
    RenderAgree(a, b, ks);
  }

  /** `{...o, signature: sign}`, with sign the trading-key signature of o's own message. */
  function SignRow(lib: Lib, tradingSecret: string, o: Obj): Obj {
    WithField(o, "signature", Str(OrderSignature.SignMessageByTradingKey(lib, tradingSecret, TradingMessage(o))))
  }

  /**
   * What a verifier of a signed object finds: removing `signature` gives back the object,
   * and the signature parses to the trading key's signature of the message of what remains.
   */
  lemma SignRowVerifies(lib: Lib, tradingSecret: string, o: Obj)
    requires "signature" !in Keys(o)
    ensures var signed := SignRow(lib, tradingSecret, o);
      WithoutField(signed, "signature") == o
      && Keys(signed) == Keys(o) + ["signature"]
      && Get(signed, "signature").Some? && Get(signed, "signature").value.Str?
      && OrderSignature.ParseTradingSignature(Get(signed, "signature").value.s)
         == Some(lib.ecdsaSign(tradingSecret, lib.keccak256(TradingMessage(WithoutField(signed, "signature")))))
  {
    var sig := OrderSignature.SignMessageByTradingKey(lib, tradingSecret, TradingMessage(o));
    WithoutWithField(o, "signature", Str(sig));
    WithFieldSets(o, "signature", Str(sig));
    OrderSignature.TradingSignatureParses(lib, tradingSecret, TradingMessage(o));
  }

  /** The batch branch is taken when the parameters have exactly one key and its value is an array. */
  predicate IsBatchShape(params: Obj) {
    |params.fields| == 1 && params.fields[0].value.Rows?
  }

  function BatchRows(params: Obj): seq<Obj>
    requires IsBatchShape(params)
  {
    params.fields[0].value.items
  }

  /** Each row with its own trading-key signature, in the same order. */
  function SignRows(lib: Lib, tradingSecret: string, rows: seq<Obj>): seq<Obj> {
    seq(|rows|, i requires 0 <= i < |rows| => SignRow(lib, tradingSecret, rows[i]))
  }

  datatype RequestData = Single(obj: Obj) | Batch(rows: seq<Obj>)

  datatype SignedRequest = SignedRequest(headers: map<HeaderName, string>, requestData: RequestData)

  /** The body a batch message covers: the one key of the parameters, now holding the signed rows. */
  function BatchEnvelope(params: Obj, signedRows: seq<Obj>): Obj
    requires IsBatchShape(params)
  {
    Obj([Field(params.fields[0].key, Rows(signedRows))])
  }

  /** The orderly-key message of a write: the batch envelope as body, or the signed object as query or body. */
  function PostMessage(lib: Lib, ts: string, verb: string, path: string, params: Obj, data: RequestData, includeQuery: bool): string
    requires data.Batch? ==> IsBatchShape(params)
  {
    match data
    case Batch(rows) => ts + Upper(verb) + path + JsonObj(lib, BatchEnvelope(params, rows))
    case Single(o) => OrderlyMessage(lib, ts, verb, path, Some(o), includeQuery)
  }

  /** The batch message is in body mode whatever the query flag says. */
  lemma BatchIgnoresQueryFlag(lib: Lib, ts: string, verb: string, path: string, params: Obj, rows: seq<Obj>)
    requires IsBatchShape(params)
    ensures PostMessage(lib, ts, verb, path, params, Batch(rows), true)
         == PostMessage(lib, ts, verb, path, params, Batch(rows), false)
         == OrderlyMessage(lib, ts, verb, path, Some(BatchEnvelope(params, rows)), false)
  {
  }

  /** A signed single object always has a key, so in body mode its message always carries a JSON body. */
  lemma SingleBodyNeverEmpty(lib: Lib, ts: string, verb: string, path: string, params: Obj, tradingSecret: string)
    ensures var signed := SignRow(lib, tradingSecret, params);
      PostMessage(lib, ts, verb, path, params, Single(signed), false)
      == ts + Upper(verb) + path + JsonObj(lib, signed)
  {
  }

  function ContentType(verb: string): string {
    if Upper(verb) == "POST" || Upper(verb) == "PUT" then JsonContentType else FormContentType
  }

  function BatchHeaders(contentType: string, ts: string, accountId: string, orderlyKey: string,
                        tradingPublic: string, sign: string): map<HeaderName, string> {
    map[
      ContentTypeLower := contentType,
      OrderlyTimestamp := ts,
      OrderlyAccountId := accountId,
      OrderlyKey := orderlyKey,
      OrderlyTradingKey := tradingPublic,
      OrderlySignature := sign
    ]
  }

  function SingleHeaders(contentType: string, ts: string, accountId: string, orderlyKey: string,
                         tradingPublic: string, sign: string): map<HeaderName, string> {
    map[
      Accept := JsonContentType,
      JustCheck := "ok",
      AllowOrigin := "*",
      ContentTypeUpper := contentType,
      OrderlyTimestamp := ts,
      OrderlyAccountId := accountId,
      OrderlyKey := orderlyKey,
      OrderlyTradingKey := tradingPublic,
      OrderlySignature := sign
    ]
  }

  lemma BatchHeadersContents(contentType: string, ts: string, accountId: string, orderlyKey: string,
                             tradingPublic: string, sign: string)
    ensures var h := BatchHeaders(contentType, ts, accountId, orderlyKey, tradingPublic, sign);
      && h.Keys == {ContentTypeLower, OrderlyTimestamp, OrderlyAccountId, OrderlyKey, OrderlyTradingKey, OrderlySignature}
      && h[ContentTypeLower] == contentType && h[OrderlyTimestamp] == ts && h[OrderlyAccountId] == accountId
      && h[OrderlyKey] == orderlyKey && h[OrderlyTradingKey] == tradingPublic && h[OrderlySignature] == sign
  {
  }

  lemma SingleHeadersContents(contentType: string, ts: string, accountId: string, orderlyKey: string,
                              tradingPublic: string, sign: string)
    ensures var h := SingleHeaders(contentType, ts, accountId, orderlyKey, tradingPublic, sign);
      && h.Keys == {Accept, JustCheck, AllowOrigin, ContentTypeUpper, OrderlyTimestamp, OrderlyAccountId,
                    OrderlyKey, OrderlyTradingKey, OrderlySignature}
      && h[ContentTypeUpper] == contentType && h[OrderlyTimestamp] == ts && h[OrderlyAccountId] == accountId
      && h[OrderlyKey] == orderlyKey && h[OrderlyTradingKey] == tradingPublic && h[OrderlySignature] == sign
  {
  }

  /** The request data of a write: the rows each signed, or the object signed. */
  function PostData(lib: Lib, tradingSecret: string, params: Obj): RequestData {
    if IsBatchShape(params) then Batch(SignRows(lib, tradingSecret, BatchRows(params)))
    else Single(SignRow(lib, tradingSecret, params))
  }

  /** generatePostHeadersAndRequestData, as a value: what the method below computes. */
  function SignedPost(lib: Lib, now: nat, verb: string, path: string, params: Obj, orderlySecret: string,
                      accountId: string, orderlyKey: string, tradingSecret: string, tradingPublic: string,
                      includeQuery: bool): SignedRequest
  {
    var ts := Timestamp(now);
    var data := PostData(lib, tradingSecret, params);
    var sign := OrderSignature.SignPostRequestByOrderlyKey(lib, orderlySecret, lib.utf8(PostMessage(lib, ts, verb, path, params, data, includeQuery)));
    var headers :=
      if data.Batch? then BatchHeaders(ContentType(verb), ts, accountId, orderlyKey, tradingPublic, sign)
      else SingleHeaders(ContentType(verb), ts, accountId, orderlyKey, tradingPublic, sign);
    SignedRequest(headers, data)
  }

  /** The batch branch is taken exactly for a one-key array parameter; each row is signed on its own, in order. */
  lemma SignedPostData(lib: Lib, now: nat, verb: string, path: string, params: Obj, orderlySecret: string,
                       accountId: string, orderlyKey: string, tradingSecret: string, tradingPublic: string,
                       includeQuery: bool)
    ensures var r := SignedPost(lib, now, verb, path, params, orderlySecret, accountId, orderlyKey, tradingSecret, tradingPublic, includeQuery);
      && (r.requestData.Batch? <==> IsBatchShape(params))
      && (r.requestData.Batch? ==> r.requestData.rows == SignRows(lib, tradingSecret, BatchRows(params)))
      && (r.requestData.Single? ==> r.requestData.obj == SignRow(lib, tradingSecret, params))
  {
  }

  /**
   * Both branches: content type JSON for POST and PUT and form-encoded otherwise, the timestamp
   * of the signed message, the ids copied unchanged, and the trading public key.
   */
  lemma SignedPostHeaders(lib: Lib, now: nat, verb: string, path: string, params: Obj, orderlySecret: string,
                          accountId: string, orderlyKey: string, tradingSecret: string, tradingPublic: string,
                          includeQuery: bool)
    ensures var r := SignedPost(lib, now, verb, path, params, orderlySecret, accountId, orderlyKey, tradingSecret, tradingPublic, includeQuery);
      var ct := if r.requestData.Batch? then ContentTypeLower else ContentTypeUpper;
      && ct in r.headers
      && r.headers[ct] == (if Upper(verb) == "POST" || Upper(verb) == "PUT" then JsonContentType else FormContentType)
      && OrderlyTimestamp in r.headers && r.headers[OrderlyTimestamp] == Timestamp(now)
      && OrderlyAccountId in r.headers && r.headers[OrderlyAccountId] == accountId
      && OrderlyKey in r.headers && r.headers[OrderlyKey] == orderlyKey
      && OrderlyTradingKey in r.headers && r.headers[OrderlyTradingKey] == tradingPublic
  {
    var ts := Timestamp(now);
    var data := PostData(lib, tradingSecret, params);
    var sign := OrderSignature.SignPostRequestByOrderlyKey(lib, orderlySecret, lib.utf8(PostMessage(lib, ts, verb, path, params, data, includeQuery)));
    if data.Batch? {
      BatchHeadersContents(ContentType(verb), ts, accountId, orderlyKey, tradingPublic, sign);
    } else {
      SingleHeadersContents(ContentType(verb), ts, accountId, orderlyKey, tradingPublic, sign);
    }
  }

  /** The orderly signature header is the orderly key's signature of the outer message over the signed data. */
  lemma SignedPostSignature(lib: Lib, now: nat, verb: string, path: string, params: Obj, orderlySecret: string,
                            accountId: string, orderlyKey: string, tradingSecret: string, tradingPublic: string,
                            includeQuery: bool)
    ensures var r := SignedPost(lib, now, verb, path, params, orderlySecret, accountId, orderlyKey, tradingSecret, tradingPublic, includeQuery);
      && OrderlySignature in r.headers
      && Base64.Decode(r.headers[OrderlySignature])
         == Some(lib.ed25519Sign(orderlySecret, lib.utf8(PostMessage(lib, Timestamp(now), verb, path, params, r.requestData, includeQuery))))
  {
    var data := PostData(lib, tradingSecret, params);
    OrderSignature.OrderlySignatureDecodes(lib, orderlySecret, lib.utf8(PostMessage(lib, Timestamp(now), verb, path, params, data, includeQuery)));
  }

  /** The loop of the batch branch: each row signed and pushed onto a new array, in order. */
  method SignEachRow(lib: Lib, tradingSecret: string, dataArray: seq<Obj>) returns (requestDataArray: seq<Obj>)
    ensures requestDataArray == SignRows(lib, tradingSecret, dataArray)
  {
    requestDataArray := [];
    var i := 0;
    while i < |dataArray|
      invariant 0 <= i <= |dataArray|
      invariant |requestDataArray| == i
      invariant forall j :: 0 <= j < i ==> requestDataArray[j] == SignRow(lib, tradingSecret, dataArray[j])
    {
      var requestData := SignRow(lib, tradingSecret, dataArray[i]);
      requestDataArray := requestDataArray + [requestData];
      i := i + 1;
    }
  }

  /** generatePostHeadersAndRequestData: the batch or the single branch, as the source runs them. */
  method GeneratePostHeadersAndRequestData(lib: Lib, now: nat, verb: string, path: string, params: Obj,
                                           orderlySecret: string, accountId: string, orderlyKey: string,
                                           tradingSecret: string, tradingPublic: string, includeQuery: bool)
    returns (r: SignedRequest)
    ensures r == SignedPost(lib, now, verb, path, params, orderlySecret, accountId, orderlyKey, tradingSecret, tradingPublic, includeQuery)
  {
    var objectKeys := Keys(params);
    if |objectKeys| == 1 && params.fields[0].value.Rows? {
      var requestDataArray := SignEachRow(lib, tradingSecret, params.fields[0].value.items);
      var ts := Timestamp(now);
      var messageStr := ts + Upper(verb) + path + JsonObj(lib, Obj([Field(objectKeys[0], Rows(requestDataArray))]));
      assert messageStr == PostMessage(lib, ts, verb, path, params, Batch(requestDataArray), includeQuery);
      var orderlySign := OrderSignature.SignPostRequestByOrderlyKey(lib, orderlySecret, lib.utf8(messageStr));
      var contentType := if Upper(verb) == "POST" || Upper(verb) == "PUT" then JsonContentType else FormContentType;
      r := SignedRequest(BatchHeaders(contentType, ts, accountId, orderlyKey, tradingPublic, orderlySign), Batch(requestDataArray));
    } else {
      var requestData := SignRow(lib, tradingSecret, params);
      var ts := Timestamp(now);
      var messageStr := ts + Upper(verb)
        + (if includeQuery then path + "?" + Form(lib, requestData) else path)
        + (if includeQuery then "" else if |Keys(requestData)| > 0 then JsonObj(lib, requestData) else "");
      assert messageStr == PostMessage(lib, ts, verb, path, params, Single(requestData), includeQuery);
      var orderlySign := OrderSignature.SignPostRequestByOrderlyKey(lib, orderlySecret, lib.utf8(messageStr));
      var contentType := FormContentType;
      var upper := Upper(verb);
      if upper == "POST" {
        contentType := JsonContentType;
      } else if upper == "PUT" {
        contentType := JsonContentType;
      } else if upper == "DELETE" {
        contentType := FormContentType;
      }
      assert contentType == ContentType(verb);
      r := SignedRequest(SingleHeaders(contentType, ts, accountId, orderlyKey, tradingPublic, orderlySign), Single(requestData));
    }
  }
}

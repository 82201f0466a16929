/**
 * The order endpoints (orders.client.ts). Each call chooses a plan: the method, the path it
 * signs, how it signs (read headers or write headers, query or body mode), the path it
 * requests and where the data goes; the id checks fail before anything is signed. A server
 * accepts a request when the orderly signature verifies over the message it rebuilds from
 * what it received: timestamp, method, path, then the query string or the JSON body.
 */
module Orders {
  import opened Wrappers
  import opened Text
  import opened External
  import opened Values
  import opened Headers
  import OrderSignature

  const ApiVersion := "v1"
  const MissingIdError := "You need to pass either order_id or client_order_id param"
  const DefaultMaxLevel := Num("100")

  /** The credentials of an authorized client, and the library functions it signs with. */
  datatype Config = Config(lib: Lib, orderlySecret: string, accountId: string, orderlyKey: string,
                           tradingSecret: string, tradingPublic: string)

  /** How a call signs: generateGetHeaders over optional parameters, or generatePostHeadersAndRequestData. */
  datatype Signer = ReadSigner(readParams: Option<Obj>) | WriteSigner(writeParams: Obj)

  /** Where the data goes on the wire: query parameters, the body, the body under one key, or nowhere. */
  datatype Placement = InQuery | InBody | InBodyUnder(key: string) | Nowhere

  datatype Plan = Plan(verb: string, signedPath: string, signer: Signer, includeQuery: bool,
                       requestPath: string, placement: Placement)

  /** What goes on the wire: method, URL path, query parameters, JSON body and headers. */
  datatype HttpRequest = HttpRequest(verb: string, path: string, query: Option<Value>, body: Option<Value>,
                                     headers: map<HeaderName, string>)

  function TrimLeadingSlashes(s: string): string {
    if s != [] && s[0] == '/' then TrimLeadingSlashes(s[1..]) else s
  }

  /** The path an axios instance with base URL `${apiUrl}/v1` requests for a relative url. */
  function InstancePath(rel: string): string {
    "/" + ApiVersion + "/" + TrimLeadingSlashes(rel)
  }

  lemma InstancePathRelative(rel: string)
    requires rel != [] && rel[0] != '/'
    ensures InstancePath(rel) == "/v1/" + rel
  {
  }

  lemma InstancePathRooted(rel: string)
    requires |rel| >= 2 && rel[0] == '/' && rel[1] != '/'
    ensures InstancePath(rel) == "/v1" + rel
  {
    assert TrimLeadingSlashes(rel) == rel[1..];
    assert rel == "/" + rel[1..];
  }

  /** The request data as a JavaScript value: the signed object, or the array of signed rows. */
  function DataValue(d: RequestData): Value {
    match d
    case Single(o) => Object(o)
    case Batch(rows) => Rows(rows)
  }

  /** `${v}` for a property that may be undefined. */
  function OptText(v: Option<Value>): string {
    match v
    case Some(x) => ToText(x)
    case None => "undefined"
  }

  /** The data a call sends: the parameters of a read, the signed data of a write. */
  function SentData(c: Config, p: Plan): Option<Value> {
    match p.signer
    case ReadSigner(params) => if params.Some? then Some(Object(params.value)) else None
    case WriteSigner(params) => Some(DataValue(PostData(c.lib, c.tradingSecret, params)))
  }

  /** A value axios writes as its text, as URLSearchParams does: a string, a number or a boolean. */
  predicate IsScalar(v: Value) {
    v.Str? || v.Num? || v.Bool?
  }

  /** Parameters whose every value is a scalar: axios sends them as they are. */
  predicate PlainQuery(o: Obj) {
    forall i :: 0 <= i < |o.fields| ==> IsScalar(o.fields[i].value)
  }

  /**
   * The pairs axios's `params` serializer writes for one property, as the server decodes them:
   * a null property is left out, an array becomes one `key[]` pair per item holding the item's
   * JSON, an object holds its JSON, and any other value goes as it is.
   */
  function AxiosPair(lib: Lib, f: Field): seq<Field> {
    match f.value
    case Null => []
    case Rows(items) => seq(|items|, i requires 0 <= i < |items| => Field(f.key + "[]", Str(JsonObj(lib, items[i]))))
    case Object(o) => [Field(f.key, Str(JsonObj(lib, o)))]
    case _ => [f]
  }

  function AxiosPairs(lib: Lib, fs: seq<Field>): seq<Field> {
    if fs == [] then [] else AxiosPair(lib, fs[0]) + AxiosPairs(lib, fs[1..])
  }

  /** The query parameters axios puts on the url for `params`; an array is walked by index. */
  function AxiosParams(lib: Lib, v: Value): Obj {
    match v
    case Object(o) => Obj(AxiosPairs(lib, o.fields))
    case Rows(items) => Obj(seq(|items|, i requires 0 <= i < |items| => Field(Decimal(i), Str(JsonObj(lib, items[i])))))
    case _ => Obj(AxiosPairs(lib, [Field("0", v)]))
  }

  /** Scalar parameters reach the server as they were given. */
  lemma {:induction false} AxiosPairsPlain(lib: Lib, fs: seq<Field>)
    requires forall i :: 0 <= i < |fs| ==> IsScalar(fs[i].value)
    ensures AxiosPairs(lib, fs) == fs
  {
    if fs != [] {
      assert IsScalar(fs[0].value);
      AxiosPairsPlain(lib, fs[1..]);
    }
  }

  /** Setting a scalar keeps the parameters scalar. */
  lemma {:induction false} AssignScalar(fs: seq<Field>, k: string, v: Value)
    requires IsScalar(v) && forall i :: 0 <= i < |fs| ==> IsScalar(fs[i].value)
    ensures var r := Assign(fs, k, v); forall i :: 0 <= i < |r| ==> IsScalar(r[i].value)
  {
    if fs == [] {
      assert Assign(fs, k, v) == [Field(k, v)];
    } else if fs[0].key == k {
      assert Assign(fs, k, v) == [Field(k, v)] + fs[1..];
    } else {
      AssignScalar(fs[1..], k, v);
      assert Assign(fs, k, v) == [fs[0]] + Assign(fs[1..], k, v);
    }
  }

  /** Signing scalar parameters adds a string signature: the signed object is still scalar. */
  lemma SignRowPlain(lib: Lib, tradingSecret: string, o: Obj)
    requires PlainQuery(o)
    ensures PlainQuery(SignRow(lib, tradingSecret, o))
  {
    var sig := Str(OrderSignature.SignMessageByTradingKey(lib, tradingSecret, TradingMessage(o)));
    AssignScalar(o.fields, "signature", sig);
    assert SignRow(lib, tradingSecret, o).fields == Assign(o.fields, "signature", sig);
  }

  /** The query parameters of a request, as axios writes the data a plan sends there. */
  function SentQuery(c: Config, p: Plan): Option<Value> {
    if p.placement.InQuery? && SentData(c, p).Some? then Some(Object(AxiosParams(c.lib, SentData(c, p).value))) else None
  }

  function SentBody(c: Config, p: Plan): Option<Value> {
    match p.placement
    case InBody => SentData(c, p)
    case InBodyUnder(k) => if SentData(c, p).Some? then Some(Object(Obj([Field(k, SentData(c, p).value)]))) else None
    case _ => None
  }

  function SignedHeaders(c: Config, now: nat, p: Plan): map<HeaderName, string> {
    match p.signer
    case ReadSigner(params) =>
      GetHeaders(c.lib, now, p.verb, p.signedPath, params, c.orderlySecret, c.accountId, c.orderlyKey, p.includeQuery)
    case WriteSigner(params) =>
      SignedPost(c.lib, now, p.verb, p.signedPath, params, c.orderlySecret, c.accountId, c.orderlyKey,
                 c.tradingSecret, c.tradingPublic, p.includeQuery).headers
  }

  /** The request a plan sends at clock reading `now`. */
  function Perform(c: Config, now: nat, p: Plan): HttpRequest {
    HttpRequest(p.verb, p.requestPath, SentQuery(c, p), SentBody(c, p), SignedHeaders(c, now, p))
  }

  /** The message the client signs for a plan. */
  function ClientMessage(c: Config, ts: string, p: Plan): string {
    match p.signer
    case ReadSigner(params) => OrderlyMessage(c.lib, ts, p.verb, p.signedPath, params, p.includeQuery)
    case WriteSigner(params) =>
      if IsBatchShape(params) then PostMessage(c.lib, ts, p.verb, p.signedPath, params, PostData(c.lib, c.tradingSecret, params), p.includeQuery)
      else PostMessage(c.lib, ts, p.verb, p.signedPath, params, PostData(c.lib, c.tradingSecret, params), p.includeQuery)
  }

  /** The query string a server reads back from the query parameters of a request. */
  function QueryString(lib: Lib, v: Value): string {
    match v
    case Object(o) => Form(lib, o)
    case _ => ToText(v)
  }

  /** The message a server rebuilds from what it received. */
  function ServerMessage(lib: Lib, ts: string, verb: string, path: string, query: Option<Value>, body: Option<Value>): string {
    ts + verb + path
    + (if query.Some? then "?" + QueryString(lib, query.value) else "")
    + (if body.Some? then Json(lib, body.value) else "")
  }

  predicate ServerAccepts(lib: Lib, req: HttpRequest) {
    && OrderlyTimestamp in req.headers
    && OrderlyKey in req.headers
    && OrderlySignature in req.headers
    && OrderSignature.OrderlySignatureValid(
         lib, req.headers[OrderlyKey],
         lib.utf8(ServerMessage(lib, req.headers[OrderlyTimestamp], req.verb, req.path, req.query, req.body)),
         req.headers[OrderlySignature])
  }

  /** The methods the order endpoints use, written in upper case as the server reads them. */
  predicate IsVerb(verb: string) {
    verb == "GET" || verb == "POST" || verb == "PUT" || verb == "DELETE"
  }

  lemma UpperVerb(verb: string)
    requires IsVerb(verb)
    ensures Upper(verb) == verb
  {
    UpperKeeps(verb);
  }

  /**
   * A plan is consistent when it requests the path it signs, with an upper-case method, and
   * sends its data where the signing mode put it in the message; in query mode the parameters
   * are scalars, which axios sends as they were signed.
   */
  predicate Consistent(p: Plan) {
    && p.requestPath == p.signedPath
    && IsVerb(p.verb)
    && match p.signer
       case ReadSigner(params) =>
         if p.includeQuery then p.placement == InQuery && params.Some? && PlainQuery(params.value)
         else p.placement == Nowhere && (params.None? || params.value.fields == [])
       case WriteSigner(params) =>
         if p.includeQuery then p.placement == InQuery && !IsBatchShape(params) && PlainQuery(params)
         else if IsBatchShape(params) then p.placement == InBodyUnder(params.fields[0].key)
         else p.placement == InBody
  }

  /** The headers of a plan carry the orderly key, the timestamp, and the signature of the client message. */
  lemma SignedHeadersContents(c: Config, now: nat, p: Plan)
    ensures var h := SignedHeaders(c, now, p);
      && OrderlyTimestamp in h && h[OrderlyTimestamp] == Timestamp(now)
      && OrderlyKey in h && h[OrderlyKey] == c.orderlyKey
      && OrderlySignature in h
      && Base64.Decode(h[OrderlySignature]) == Some(c.lib.ed25519Sign(c.orderlySecret, c.lib.utf8(ClientMessage(c, Timestamp(now), p))))
  {
    match p.signer
    case ReadSigner(params) =>
      GetHeadersContents(c.lib, now, p.verb, p.signedPath, params, c.orderlySecret, c.accountId, c.orderlyKey, p.includeQuery);
    case WriteSigner(params) =>
      SignedPostHeaders(c.lib, now, p.verb, p.signedPath, params, c.orderlySecret, c.accountId, c.orderlyKey,
                        c.tradingSecret, c.tradingPublic, p.includeQuery);
      SignedPostSignature(c.lib, now, p.verb, p.signedPath, params, c.orderlySecret, c.accountId, c.orderlyKey,
                          c.tradingSecret, c.tradingPublic, p.includeQuery);
      SignedPostData(c.lib, now, p.verb, p.signedPath, params, c.orderlySecret, c.accountId, c.orderlyKey,
                     c.tradingSecret, c.tradingPublic, p.includeQuery);
  }

  lemma ReadMessagesAgree(c: Config, ts: string, p: Plan)
    requires Consistent(p) && p.signer.ReadSigner?
    ensures ServerMessage(c.lib, ts, p.verb, p.requestPath, SentQuery(c, p), SentBody(c, p)) == ClientMessage(c, ts, p)
  {
    UpperVerb(p.verb);
    if p.includeQuery {
      AxiosPairsPlain(c.lib, p.signer.readParams.value.fields);
    }
  }

  lemma WriteMessagesAgree(c: Config, ts: string, p: Plan)
    requires Consistent(p) && p.signer.WriteSigner?
    ensures ServerMessage(c.lib, ts, p.verb, p.requestPath, SentQuery(c, p), SentBody(c, p)) == ClientMessage(c, ts, p)
  {
    UpperVerb(p.verb);
    var params := p.signer.writeParams;
    if p.includeQuery {
      SignRowPlain(c.lib, c.tradingSecret, params);
      AxiosPairsPlain(c.lib, SignRow(c.lib, c.tradingSecret, params).fields);
    } else if !IsBatchShape(params) {
      var signed := SignRow(c.lib, c.tradingSecret, params);
      SingleBodyNeverEmpty(c.lib, ts, p.verb, p.signedPath, params, c.tradingSecret);
    }
  }

  /** For a consistent plan, the server rebuilds exactly the message the client signed. */
  lemma ConsistentMessagesAgree(c: Config, ts: string, p: Plan)
    requires Consistent(p)
    ensures ServerMessage(c.lib, ts, p.verb, p.requestPath, SentQuery(c, p), SentBody(c, p)) == ClientMessage(c, ts, p)
  {
    if p.signer.ReadSigner? {
      ReadMessagesAgree(c, ts, p);
    } else {
      WriteMessagesAgree(c, ts, p);
    }
  }

  /** With the orderly key pair matching, the request of a consistent plan is accepted. */
  lemma ConsistentAccepted(c: Config, now: nat, p: Plan)
    requires KeysMatch(c.lib, c.orderlySecret, c.orderlyKey)
    requires Consistent(p)
    ensures ServerAccepts(c.lib, Perform(c, now, p))
  {
    SignedHeadersContents(c, now, p);
    ConsistentMessagesAgree(c, Timestamp(now), p);
    OrderSignature.SignedRequestVerifies(c.lib, c.orderlySecret, c.orderlyKey, c.lib.utf8(ClientMessage(c, Timestamp(now), p)));
  }

  /**
   * A write in query mode whose requested path does not continue as the signed path and '?'
   * does: the two messages part where the paths do.
   */
  lemma QueryMessagesDiffer(c: Config, ts: string, p: Plan)
    requires p.signer.WriteSigner? && !IsBatchShape(p.signer.writeParams)
    requires p.includeQuery && p.placement == InQuery && Upper(p.verb) == p.verb
    requires |p.requestPath| > |p.signedPath| && p.requestPath[..|p.signedPath| + 1] != p.signedPath + "?"
    ensures ServerMessage(c.lib, ts, p.verb, p.requestPath, SentQuery(c, p), SentBody(c, p)) != ClientMessage(c, ts, p)
  {
    var signed := SignRow(c.lib, c.tradingSecret, p.signer.writeParams);
    var server := ServerMessage(c.lib, ts, p.verb, p.requestPath, SentQuery(c, p), SentBody(c, p));
    var client := ClientMessage(c, ts, p);
    var n := |ts| + |p.verb|;
    var m := |p.signedPath| + 1;
    assert client == ts + p.verb + (p.signedPath + "?") + Form(c.lib, signed);
    assert server == ts + p.verb + p.requestPath + "?" + QueryString(c.lib, Object(AxiosParams(c.lib, Object(signed))));
    assert client[n..n + m] == p.signedPath + "?";
    assert server[n..n + m] == p.requestPath[..m];
  }

  /** A read with no parameters in body mode signs just its path: the server agrees exactly when it requests that path. */
  lemma UnsignedReadMessages(c: Config, ts: string, p: Plan)
    requires p.signer == ReadSigner(None) && !p.includeQuery && p.placement == Nowhere && Upper(p.verb) == p.verb
    ensures ServerMessage(c.lib, ts, p.verb, p.requestPath, SentQuery(c, p), SentBody(c, p)) == ClientMessage(c, ts, p)
        <==> p.requestPath == p.signedPath
  {
    var server := ServerMessage(c.lib, ts, p.verb, p.requestPath, SentQuery(c, p), SentBody(c, p));
    var client := ClientMessage(c, ts, p);
    assert server == ts + p.verb + p.requestPath;
    assert client == ts + p.verb + p.signedPath;
    if server == client {
      assert p.requestPath == server[|ts + p.verb|..] == client[|ts + p.verb|..] == p.signedPath;
    }
  }

  predicate HasSomeId(params: Obj) {
    IsTruthy(Get(params, "order_id")) || IsTruthy(Get(params, "client_order_id"))
  }

  /** create: signs POST /v1/order in body mode and posts the signed data to '/order'. */
  function CreatePlan(params: Obj): Plan {
    Plan("POST", "/v1/order", WriteSigner(params), false, InstancePath("/order"), InBody)
  }

  /** A single order is sent as signed. */
  lemma CreateConsistent(params: Obj)
    requires !IsBatchShape(params)
    ensures Consistent(CreatePlan(params))
  {
    InstancePathRooted("/order");
  }

  /** createBatch: signs POST /v1/batch-order and posts `{orders: requestData}` to 'batch-order'. */
  function CreateBatchPlan(params: Obj): Plan {
    Plan("POST", "/v1/batch-order", WriteSigner(params), false, InstancePath("batch-order"), InBodyUnder("orders"))
  }

  /** A batch given as `{orders: [...]}` is sent as signed. */
  lemma CreateBatchConsistent(params: Obj)
    requires IsBatchShape(params) && params.fields[0].key == "orders"
    ensures Consistent(CreateBatchPlan(params))
  {
    InstancePathRelative("batch-order");
  }

  /** cancel: needs an id; deletes by client order id when one is given, else by order id, signed in query mode. */
  function CancelPlan(params: Obj): (r: Result<Plan>)
    ensures r.Failure? <==> !HasSomeId(params)
    ensures r.Failure? ==> r.error == MissingIdError
    ensures r.Success? ==>
      r.value.signedPath == r.value.requestPath
      == (if IsTruthy(Get(params, "client_order_id")) then "/v1/client/order" else "/v1/order")
  {
    if !IsTruthy(Get(params, "order_id")) && !IsTruthy(Get(params, "client_order_id")) then Failure(MissingIdError)
    else
      var url := if IsTruthy(Get(params, "client_order_id")) then "/client/order" else "/order";
      Success(Plan("DELETE", "/v1" + url, WriteSigner(params), true, "/" + ApiVersion + url, InQuery))
  }

  lemma CancelConsistent(params: Obj)
    requires HasSomeId(params) && !IsBatchShape(params) && PlainQuery(params)
    ensures CancelPlan(params).Success? && Consistent(CancelPlan(params).value)
  {
  }

  /** cancelBatch as written: signs DELETE /v1/order but sends the request to 'orders'. */
  function CancelBatchPlan(params: Obj): Plan {
    Plan("DELETE", "/v1/order", WriteSigner(params), true, InstancePath("orders"), InQuery)
  }

  /** cancelBatch signing the path it requests. */
  function CancelBatchPlanCorrected(params: Obj): Plan {
    Plan("DELETE", "/v1/orders", WriteSigner(params), true, InstancePath("orders"), InQuery)
  }

  /** The server rebuilds "/v1/orders" where the client signed "/v1/order": the messages always differ. */
  lemma CancelBatchMessagesDiffer(c: Config, ts: string, params: Obj)
    requires !IsBatchShape(params)
    ensures var p := CancelBatchPlan(params);
      ServerMessage(c.lib, ts, p.verb, p.requestPath, SentQuery(c, p), SentBody(c, p)) != ClientMessage(c, ts, p)
  {
    InstancePathRelative("orders");
    UpperKeeps("DELETE");
    var p := CancelBatchPlan(params);
    assert p.requestPath == "/v1/orders";
    assert p.requestPath[9] == 's';
    assert (p.signedPath + "?")[9] == '?';
    QueryMessagesDiffer(c, ts, p);
  }

  lemma CancelBatchCorrectedConsistent(params: Obj)
    requires !IsBatchShape(params) && PlainQuery(params)
    ensures Consistent(CancelBatchPlanCorrected(params))
  {
    InstancePathRelative("orders");
  }

  /** The url getOrder requests: by client order id when one is given, else by order id. */
  function GetOrderUrl(params: Obj): string {
    if IsTruthy(Get(params, "client_order_id")) then "client/order/" + OptText(Get(params, "client_order_id"))
    else "order/" + OptText(Get(params, "order_id"))
  }

  /** getOrder as written: signs /v1/order/<order id, else client order id> whatever url it requests. */
  function GetOrderPlan(params: Obj): (r: Result<Plan>)
    ensures r.Failure? <==> !HasSomeId(params)
    ensures r.Failure? ==> r.error == MissingIdError
    ensures r.Success? ==> r.value.requestPath == "/v1/" + GetOrderUrl(params)
  {
    if !IsTruthy(Get(params, "order_id")) && !IsTruthy(Get(params, "client_order_id")) then Failure(MissingIdError)
    else
      var url := GetOrderUrl(params);
      var signedPath := "/v1/order/" + (if IsTruthy(Get(params, "order_id")) then OptText(Get(params, "order_id"))
                                        else OptText(Get(params, "client_order_id")));
      InstancePathRelative(url);
      Success(Plan("GET", signedPath, ReadSigner(None), false, InstancePath(url), Nowhere))
  }

  /** By order id alone, getOrder signs the path it requests. */
  lemma GetOrderByIdConsistent(params: Obj)
    requires IsTruthy(Get(params, "order_id")) && !IsTruthy(Get(params, "client_order_id"))
    ensures GetOrderPlan(params).Success? && Consistent(GetOrderPlan(params).value)
  {
  }

  /** With a client order id, the server rebuilds /v1/client/order/... where the client signed /v1/order/...: the messages always differ. */
  lemma GetOrderByClientIdMessagesDiffer(c: Config, ts: string, params: Obj)
    requires IsTruthy(Get(params, "client_order_id"))
    ensures GetOrderPlan(params).Success?
    ensures var p := GetOrderPlan(params).value;
      ServerMessage(c.lib, ts, p.verb, p.requestPath, SentQuery(c, p), SentBody(c, p)) != ClientMessage(c, ts, p)
  {
    var p := GetOrderPlan(params).value;
    UpperKeeps("GET");
    assert p.requestPath[4] == 'c' && p.signedPath[4] == 'o';
    UnsignedReadMessages(c, ts, p);
  }

  /** getOrder signing the url it requests. */
  function GetOrderPlanCorrected(params: Obj): (r: Result<Plan>)
    ensures r.Failure? <==> !HasSomeId(params)
    ensures r.Failure? ==> r.error == MissingIdError
    ensures r.Success? ==> r.value.requestPath == "/v1/" + GetOrderUrl(params)
  {
    if !IsTruthy(Get(params, "order_id")) && !IsTruthy(Get(params, "client_order_id")) then Failure(MissingIdError)
    else
      var url := GetOrderUrl(params);
      InstancePathRelative(url);
      Success(Plan("GET", "/v1/" + url, ReadSigner(None), false, InstancePath(url), Nowhere))
  }

  lemma GetOrderCorrectedConsistent(params: Obj)
    requires HasSomeId(params)
    ensures GetOrderPlanCorrected(params).Success? && Consistent(GetOrderPlanCorrected(params).value)
  {
  }

  /** getOrders: signs /v1/orders in query mode with the parameters it sends to '/orders'. */
  function GetOrdersPlan(params: Obj): Plan {
    Plan("GET", "/v1/orders", ReadSigner(Some(params)), true, InstancePath("/orders"), InQuery)
  }

  lemma GetOrdersConsistent(params: Obj)
    requires PlainQuery(params)
    ensures Consistent(GetOrdersPlan(params))
  {
    InstancePathRooted("/orders");
  }

  /** getOrderbook: max_level defaults to 100 and is signed in query mode on /v1/orderbook/<symbol>. */
  function GetOrderbookPlan(symbol: string, maxLevel: Option<Value>): Plan {
    Plan("GET", "/v1/orderbook/" + symbol, ReadSigner(Some(Obj([Field("max_level", maxLevel.GetOr(DefaultMaxLevel))]))), true,
         InstancePath("orderbook/" + symbol), InQuery)
  }

  lemma GetOrderbookConsistent(symbol: string, maxLevel: Option<Value>)
    requires maxLevel.None? || IsScalar(maxLevel.value)
    ensures Consistent(GetOrderbookPlan(symbol, maxLevel))
    ensures GetOrderbookPlan(symbol, None).signer.readParams == Some(Obj([Field("max_level", Num("100"))]))
  {
    InstancePathRelative("orderbook/" + symbol);
  }

  /**
   * A null `max_level` is signed as `max_level=null`, but axios leaves a null parameter off the
   * url: the server rebuilds a message without it, which is never the signed one.
   */
  lemma GetOrderbookNullMessagesDiffer(c: Config, ts: string, symbol: string)
    ensures var p := GetOrderbookPlan(symbol, Some(Null));
      ServerMessage(c.lib, ts, p.verb, p.requestPath, SentQuery(c, p), SentBody(c, p)) != ClientMessage(c, ts, p)
  {
    var p := GetOrderbookPlan(symbol, Some(Null));
    var server := NullOrderbookServer(c, ts, symbol);
    var client := NullOrderbookClient(c, ts, symbol);
    assert |client| > |server|;
  }

  lemma NullOrderbookServer(c: Config, ts: string, symbol: string) returns (m: string)
    ensures var p := GetOrderbookPlan(symbol, Some(Null));
      m == ServerMessage(c.lib, ts, p.verb, p.requestPath, SentQuery(c, p), SentBody(c, p))
      && m == ts + "GET" + p.signedPath + "?"
  {
    var p := GetOrderbookPlan(symbol, Some(Null));
    InstancePathRelative("orderbook/" + symbol);
    assert p.requestPath == p.signedPath;
    NullOrderbookSent(c, symbol);
    m := EmptyQueryMessage(c.lib, ts, p.verb, p.requestPath);
  }

  /** A request whose url has an empty query and which has no body. */
  lemma EmptyQueryMessage(lib: Lib, ts: string, verb: string, path: string) returns (m: string)
    ensures m == ServerMessage(lib, ts, verb, path, Some(Object(Obj([]))), None)
    ensures m == ts + verb + path + "?"
  {
    assert Form(lib, Obj([])) == "";
    m := ServerMessage(lib, ts, verb, path, Some(Object(Obj([]))), None);
  }

  /** axios drops the null `max_level`: the url carries no parameter and there is no body. */
  lemma NullOrderbookSent(c: Config, symbol: string)
    ensures var p := GetOrderbookPlan(symbol, Some(Null));
      SentQuery(c, p) == Some(Object(Obj([]))) && SentBody(c, p) == None
  {
    var p := GetOrderbookPlan(symbol, Some(Null));
    assert SentData(c, p) == Some(Object(Obj([Field("max_level", Null)])));
    assert AxiosPairs(c.lib, [Field("max_level", Null)]) == [];
  }

  lemma NullOrderbookClient(c: Config, ts: string, symbol: string) returns (m: string)
    ensures var p := GetOrderbookPlan(symbol, Some(Null));
      m == ClientMessage(c, ts, p)
      && |m| > |ts + "GET" + p.signedPath + "?"|
  {
    var p := GetOrderbookPlan(symbol, Some(Null));
    UpperKeeps("GET");
    m := ClientMessage(c, ts, p);
    assert m == ts + "GET" + p.signedPath + "?" + Form(c.lib, Obj([Field("max_level", Null)]));
  }
}

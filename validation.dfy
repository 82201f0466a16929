/** validateCreateOrderRequest (create-order.request.ts): the two required-field checks of a new order. */
module Validation {
  import opened Wrappers
  import opened Values

  const PriceError := "order_price is required"
  const AmountError := "order_amount is required"

  /** The keys of the OrderType enumeration, each mapped to the string of the same name. */
  const OrderTypeKeys := {"LIMIT", "MARKET", "IOC", "FOK", "POST_ONLY", "ASK", "BID"}

  /** OrderType[t]: the enumeration value named by t, or undefined. */
  function OrderTypeOf(t: Option<Value>): (r: Option<string>)
    ensures r.Some? ==> r.value in OrderTypeKeys && t == Some(Str(r.value))
  {
    match t
    case Some(Str(s)) => if s in OrderTypeKeys then Some(s) else None
    case _ => None
  }

  datatype ValidationResponse = ValidationResponse(success: bool, errors: seq<string>)

  /** The price is required unless the order type is MARKET. */
  predicate NeedsPrice(params: Obj) {
    !IsTruthy(Get(params, "order_price")) && Get(params, "order_type") != Some(Str("MARKET"))
  }

  /** The amount is required unless the order type names BID, ASK or MARKET. */
  predicate NeedsAmount(params: Obj) {
    !IsTruthy(Get(params, "order_amount")) && OrderTypeOf(Get(params, "order_type")) !in {Some("BID"), Some("ASK"), Some("MARKET")}
  }

  function ValidateCreateOrderRequest(params: Obj): (r: ValidationResponse)
    ensures r.success <==> r.errors == []
    ensures PriceError in r.errors <==> NeedsPrice(params)
    ensures AmountError in r.errors <==> NeedsAmount(params)
    ensures |r.errors| <= 2
    ensures forall i :: 0 <= i < |r.errors| ==> r.errors[i] in {PriceError, AmountError}
    ensures |r.errors| == 2 ==> r.errors[0] == PriceError && r.errors[1] == AmountError
  {
    var errors := (if NeedsPrice(params) then [PriceError] else [])
                + (if NeedsAmount(params) then [AmountError] else []);
    ValidationResponse(|errors| == 0, errors)
  }

  /** A MARKET order passes both checks, whatever its price and amount. */
  lemma MarketOrdersValid(params: Obj)
    requires Get(params, "order_type") == Some(Str("MARKET"))
    ensures ValidateCreateOrderRequest(params).success
  {
  }

  /** A non-MARKET order with a truthy price never gets the price error, and one with a falsy price always does. */
  lemma PriceRequiredOutsideMarket(params: Obj)
    requires Get(params, "order_type") != Some(Str("MARKET"))
    ensures PriceError in ValidateCreateOrderRequest(params).errors <==> !IsTruthy(Get(params, "order_price"))
  {
  }
}

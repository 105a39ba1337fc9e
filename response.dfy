/**
 * `Response`: pairs a request with the carrier's decoded reply and reads
 * the quoted total cost out of it.
 */
module PostageResponse {
  import opened Wrappers
  import opened OrderedMaps
  import opened PhpValues
  import PostageRequest

  /** `postage_result` of a reply, or NULL. */
  function ResultOf(reply: OMap<Value>): Value
  {
    match Get(reply, "postage_result")
    case None => Null
    case Some(v) => v
  }

  /**
   * `array_key_exists('total_cost', ...)` on `postage_result`: true only
   * for an array holding the key (a non-array gives NULL, read as false).
   */
  predicate HasTotalCost(result: Value)
  {
    result.Arr? && HasKey(result.items, "total_cost")
  }

  /** `getPostage()`: the reply's `postage_result.total_cost` as a number, after three shape checks. */
  function Postage(reply: Option<OMap<Value>>): (r: Result<real>)
    ensures reply.None? ==> r == Err(ResponseError("No API response is set."))
    ensures reply.Some? && !HasKey(reply.value, "postage_result") ==>
      r == Err(ResponseError("API response does not include a valid result."))
    ensures reply.Some? && HasKey(reply.value, "postage_result") && !HasTotalCost(ResultOf(reply.value)) ==>
      r == Err(ResponseError("API response does not include a total cost."))
    ensures r.Ok? <==> reply.Some? && HasKey(reply.value, "postage_result") && HasTotalCost(ResultOf(reply.value))
    ensures r.Ok? ==> (Get(ResultOf(reply.value).items, "total_cost").Some?
      && r.value == ToFloat(Get(ResultOf(reply.value).items, "total_cost").value))
  {
    if reply.None? then Err(ResponseError("No API response is set."))
    else if !HasKey(reply.value, "postage_result") then Err(ResponseError("API response does not include a valid result."))
    else
      var result := ResultOf(reply.value);
      if !HasTotalCost(result) then Err(ResponseError("API response does not include a total cost."))
      else Ok(ToFloat(Get(result.items, "total_cost").value))
  }

  /** The smallest well-formed carrier reply quoting `cost`. */
  function QuotedReply(cost: real): OMap<Value>
  {
    [("postage_result", Arr([("total_cost", Float(cost))]))]
  }

  /** A quote survives the trip through the reply's shape unchanged. */
  lemma QuotedReplyRoundTrip(cost: real)
    ensures Postage(Some(QuotedReply(cost))) == Ok(cost)
  {
    var reply := QuotedReply(cost);
    assert Keys(reply) == ["postage_result"];
    assert HasKey(reply, "postage_result");
    assert ResultOf(reply) == Arr([("total_cost", Float(cost))]);
    assert Keys([("total_cost", Float(cost))]) == ["total_cost"];
  }

  /** A `postage_result` that is a scalar rather than an array is reported as missing a total cost. */
  lemma ScalarResultHasNoTotal(v: Value)
    requires !v.Arr?
    ensures Postage(Some([("postage_result", v)])) == Err(ResponseError("API response does not include a total cost."))
  {
    assert Keys([("postage_result", v)]) == ["postage_result"];
    assert HasKey([("postage_result", v)], "postage_result");
  }

  class Response {
    var request: Option<PostageRequest.Request>
    var reply: Option<OMap<Value>>

    constructor()
      ensures request.None? && reply.None?
    {
      request, reply := None, None;
    }

    /** `setRequest()`. */
    method SetRequest(req: PostageRequest.Request)
      modifies this
      ensures request == Some(req) && reply == old(reply)
    {
      request := Some(req);
    }

    /** `setResponse()`. */
    method SetResponse(r: OMap<Value>)
      modifies this
      ensures reply == Some(r) && request == old(request)
    {
      reply := Some(r);
    }

    /** `getPostage()`. */
    method GetPostage() returns (r: Result<real>)
      ensures r == Postage(reply)
    {
      if reply.None? {
        return Err(ResponseError("No API response is set."));
      }
      if !HasKey(reply.value, "postage_result") {
        return Err(ResponseError("API response does not include a valid result."));
      }
      var result := ResultOf(reply.value);
      if !result.Arr? || !HasKey(result.items, "total_cost") {
        return Err(ResponseError("API response does not include a total cost."));
      }
      r := Ok(ToFloat(Get(result.items, "total_cost").value));
    }
  }
}

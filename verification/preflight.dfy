/**
 The `OPTIONS /` handler and the process-wide CORS policy it attaches to a
 genuine preflight request.
 */
module Preflight {
  import opened Wrappers
  import opened Http

  /** The policy built once at start-up: cache for a day, any origin, four methods. */
  const Cors: CorsPolicy := CorsPolicy(86400, ["*"], [Get, Head, Post, Options])

  const OriginHeader := "Origin"
  const RequestMethodHeader := "Access-Control-Request-Method"
  const RequestHeadersHeader := "Access-Control-Request-Headers"

  /**
   What `headers.get(name)` yields: `Ok(None)` for an absent header,
   `Ok(Some(value))` for a present one, `Err` when the lookup itself fails.
   */
  type HeaderLookup = Result<Option<string>, string>

  /** The request's headers, looked up by name the way the `worker` crate does it. */
  type Headers = string -> HeaderLookup

  /** `Result::transpose`. */
  function Transpose(h: HeaderLookup): Option<Result<string, string>>
  {
    match h
    case Ok(None) => None
    case Ok(Some(value)) => Some(Ok(value))
    case Err(e) => Some(Err(e))
  }

  /** The pattern `Some(_)` over the transposed lookup. */
  predicate Matched(h: HeaderLookup)
  {
    Transpose(h).Some?
  }

  /**
   A plain empty 200 response, decorated with the CORS policy exactly when the
   lookups of all three preflight headers do not come back absent.
   */
  function Handle(headers: Headers): (o: Outcome)
    ensures o.Respond? && o.response.status == 200 && o.response.body == Empty
    ensures o.response.cors.Some? <==>
              && headers(OriginHeader) != Ok(None)
              && headers(RequestMethodHeader) != Ok(None)
              && headers(RequestHeadersHeader) != Ok(None)
    ensures o.response.cors.Some? ==> o.response.cors.value == Cors
  {
    if Matched(headers(OriginHeader)) && Matched(headers(RequestMethodHeader)) && Matched(headers(RequestHeadersHeader))
    then Respond(WithCors(EmptyResponse(), Cors))
    else Respond(EmptyResponse())
  }

  /**
   A request carrying all three preflight headers gets the policy: one day of
   caching, origin `*`, methods GET, HEAD, POST and OPTIONS.
   */
  lemma AllThreePresentGetPolicy(headers: Headers, origin: string, requestedMethod: string, requested: string)
    requires headers(OriginHeader) == Ok(Some(origin))
    requires headers(RequestMethodHeader) == Ok(Some(requestedMethod))
    requires headers(RequestHeadersHeader) == Ok(Some(requested))
    ensures Handle(headers) == Respond(Response(200, Empty, Some(CorsPolicy(86400, ["*"], [Get, Head, Post, Options]))))
  {
  }

  /** Without any one of the three headers the answer is the plain empty response. */
  lemma AnyMissingIsPlain(headers: Headers)
    requires headers(OriginHeader) == Ok(None)
          || headers(RequestMethodHeader) == Ok(None)
          || headers(RequestHeadersHeader) == Ok(None)
    ensures Handle(headers) == Respond(Response(200, Empty, None))
  {
  }
}

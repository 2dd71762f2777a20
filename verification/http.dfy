/**
 The slice of the `worker` crate's HTTP types that the request handlers use:
 methods, response bodies, responses, and what a handler hands back to the
 router (`worker::Result<Response>`, or a panic).
 */
module Http {
  import opened Wrappers

  datatype Method = Head | Get | Post | Put | Patch | Delete | Options | Connect | Trace

  datatype Body = Empty | Bytes(bytes: seq<byte>) | Text(text: string)

  /** The CORS policy attached to a response, when one is. */
  datatype CorsPolicy = CorsPolicy(maxAge: nat, origins: seq<string>, methods: seq<Method>)

  /**
   A response as far as the handlers shape it: a status, a body and the CORS
   policy attached to it, if any. Header lines the `worker` crate adds on its
   own are not part of this model.
   */
  datatype Response = Response(status: nat, body: Body, cors: Option<CorsPolicy>)

  /**
   What a handler produces: a response, an error propagated with `?` (which the
   hosting runtime turns into a generic failure), or a panic.
   */
  datatype Outcome = Respond(response: Response) | Fail(error: string) | Panic

  /** `Response::error(message, status)`: a plain-text error with that status. */
  function Error(message: string, status: nat): Response
  {
    Response(status, Text(message), None)
  }

  /** `Response::from_bytes(bytes)`: status 200 with the bytes as body. */
  function FromBytes(bytes: seq<byte>): Response
  {
    Response(200, Bytes(bytes), None)
  }

  /** `Response::empty()`: status 200, no body, no CORS headers. */
  function EmptyResponse(): Response
  {
    Response(200, Empty, None)
  }

  /** `resp.with_cors(policy)`: the same response decorated with the policy. */
  function WithCors(r: Response, policy: CorsPolicy): Response
  {
    r.(cors := Some(policy))
  }
}

/** What a handler writes back: a status code and the message or error text
    of its JSON (or plain-text) body.  A handler that writes several times
    is described by the sequence of its writes.  respondWithJSON calls
    WriteHeader each time, and net/http keeps only the first status: what
    the client receives is one response with the first write's status and
    every write's body, one after the other (Sent).  One that writes nothing
    leaves Go's implicit 200 with an empty body. */
module Http {
  const StatusOK: int := 200
  const StatusBadRequest: int := 400
  const StatusNotFound: int := 404
  const StatusMethodNotAllowed: int := 405
  const StatusInternalServerError: int := 500
  const StatusGatewayTimeout: int := 504

  datatype Reply = Reply(status: int, message: string)

  /** The response a client receives. */
  datatype Response = Response(status: int, bodies: seq<string>)

  /** The response a sequence of writes produces: the first status is sent,
      the later WriteHeader calls are superfluous, and the bodies are
      appended in order. */
  function Sent(writes: seq<Reply>): (r: Response)
    requires |writes| > 0
    ensures r.status == writes[0].status
    ensures |r.bodies| == |writes| && forall k :: 0 <= k < |writes| ==> r.bodies[k] == writes[k].message
  {
    Response(writes[0].status, seq(|writes|, k requires 0 <= k < |writes| => writes[k].message))
  }
}

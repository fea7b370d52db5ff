/**
 * The HTTP layer the client talks through. The network is a finite script of
 * replies: every request consumes the next one, and once the script is used up a
 * request fails the way an unreachable server does (requests raises, the client
 * catches it). JSON decoding is folded into the reply: a body that is not valid
 * JSON is `None`.
 */
module Http {
  import opened Wrappers
  import opened PyValue

  datatype Verb = Get | Post

  /** The login payload `{"email": ..., "password": ...}`. */
  datatype Credentials = Credentials(email: string, password: string)

  datatype Request = Request(verb: Verb, url: string, headers: map<string, Value>, payload: Option<Credentials>)

  datatype Reply =
    | NetworkError                                  // requests raised before any status arrived
    | Response(status: int, body: Option<Value>)    // body is None when `response.json()` raises

  /** `response.raise_for_status()` raises for client and server errors. */
  predicate IsHttpError(status: int)
  {
    400 <= status < 600
  }

  /** The reply the next request receives, and the script left after it. */
  function Next(replies: seq<Reply>): (r: (Reply, seq<Reply>))
    ensures replies == [] ==> r == (NetworkError, [])
    ensures replies != [] ==> [r.0] + r.1 == replies
  {
    if replies == [] then (NetworkError, []) else (replies[0], replies[1..])
  }

  /** The scripted network: replies still to be delivered and every request sent so far. */
  class Transport {
    var replies: seq<Reply>
    var sent: seq<Request>

    constructor (script: seq<Reply>)
      ensures replies == script && sent == []
    {
      replies := script;
      sent := [];
    }

    /** Sends one request and receives its reply. */
    method Send(req: Request) returns (reply: Reply)
      modifies this
      ensures (reply, replies) == Next(old(replies))
      ensures sent == old(sent) + [req]
    {
      if replies == [] {
        reply := NetworkError;
      } else {
        reply := replies[0];
        replies := replies[1..];
      }
      sent := sent + [req];
    }
  }
}

/**
  What an operation hands to the transport and how it turns the reply into a
  result: status 200 gives the decoded body, any other status a
  ResponseError carrying the reply's status, reason and body.
 */
module Responses {
  import opened Wrappers
  import opened Values
  import opened QueryParams

  datatype Verb = Get | Post

  /** The arguments of `make_request(action, params, path, verb)`. */
  datatype Request = Request(action: string, params: Params, path: string, verb: Verb)

  /** The reply of the transport: `response.status`, `response.reason` and `response.read()`. */
  datatype Response = Response(status: int, reason: string, body: string)

  /**
    What a call can raise: the error of `int()` while the parameters are
    built, the ResponseError of a non-200 reply, or the error of the JSON
    decoder on a 200 reply.
   */
  datatype CallError<E> =
    | InvalidArgument(encodeError: EncodeError)
    | ResponseError(status: int, reason: string, body: string)
    | DecodeError(decodeError: E)

  /**
    The shared tail of every JSON operation. `decode` stands for `json.loads`;
    its own failure propagates unchanged.
   */
  function Dispatch<J, E>(response: Response, decode: string -> Result<J, E>): (r: Result<J, CallError<E>>)
    ensures response.status == 200 ==> (r.Success? <==> decode(response.body).Success?)
    ensures response.status == 200 && r.Success? ==> r.value == decode(response.body).value
    ensures response.status == 200 && r.Failure? ==> r.error == DecodeError(decode(response.body).error)
    ensures (r.Failure? && r.error.ResponseError?) <==> response.status != 200
    ensures r.Failure? && r.error.ResponseError? ==>
      Response(r.error.status, r.error.reason, r.error.body) == response
    ensures !(r.Failure? && r.error.InvalidArgument?)
  {
    if response.status == 200 then
      match decode(response.body)
      case Success(v) => Success(v)
      case Failure(e) => Failure(DecodeError(e))
    else
      Failure(ResponseError(response.status, response.reason, response.body))
  }
}

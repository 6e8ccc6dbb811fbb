/** The request rules of static/dashboard.js over abstract replies: `fetchJson`
    (a reply counts only when its status is 2xx and its body is JSON), the
    primary-then-fallback read of `fetchJsonWithFallback`, and the
    DELETE-then-POST removal of a performance. The network itself is not
    modelled: each endpoint's reply is an input. */
module Fetching {
  import opened JsValues

  /** What one request to an endpoint gets back: no response at all (the
      `fetch` promise rejects), or a status and a body that is JSON or not. */
  datatype Reply = NoResponse | Response(status: int, body: Option<Value>)

  datatype Failure = NetworkError | HttpError(status: int) | InvalidJson

  datatype Outcome<+T> = Ok(value: T) | Fail(failure: Failure)

  /** `res.ok`. */
  predicate StatusOk(status: int) {
    200 <= status <= 299
  }

  /** `fetchJson(url)`: the JSON body of a 2xx reply; otherwise the error it throws.
      The status is checked before the body is read. */
  function FetchJson(reply: Reply): (r: Outcome<Value>)
    ensures r.Ok? <==> reply.Response? && StatusOk(reply.status) && reply.body.Some?
    ensures r.Ok? ==> r.value == reply.body.value
    ensures reply.Response? && !StatusOk(reply.status) ==> r == Fail(HttpError(reply.status))
    ensures reply.NoResponse? ==> r == Fail(NetworkError)
  {
    match reply
    case NoResponse => Fail(NetworkError)
    case Response(status, body) =>
      if !StatusOk(status) then Fail(HttpError(status))
      else match body
        case None => Fail(InvalidJson)
        case Some(v) => Ok(v)
  }

  datatype Endpoint = Primary | Fallback

  /** The result of a read together with the endpoints it contacted, in order. */
  datatype Attempt = Attempt(result: Outcome<Value>, tried: seq<Endpoint>)

  /** `fetchJsonWithFallback(primaryUrl, fallbackUrl)`. */
  function FetchJsonWithFallback(primary: Reply, fallback: Reply): (a: Attempt)
    ensures a.tried == [Primary] || a.tried == [Primary, Fallback]
    ensures Fallback in a.tried <==> FetchJson(primary).Fail?
    ensures FetchJson(primary).Ok? ==> a.result == FetchJson(primary)
    ensures FetchJson(primary).Fail? ==> a.result == FetchJson(fallback)
    ensures a.result.Ok? <==> FetchJson(primary).Ok? || FetchJson(fallback).Ok?
  {
    match FetchJson(primary)
    case Ok(v) => Attempt(Ok(v), [Primary])
    case Fail(_) => Attempt(FetchJson(fallback), [Primary, Fallback])
  }

  /** The two ways the dashboard asks the backend to delete a performance:
      `DELETE /api/performances/:id`, and `POST /api/performances/delete`
      with the id and the user id (`null` when the page has none). */
  datatype DeleteRequest =
    | DeleteById(perfId: string)
    | DeleteByPost(perfId: string, userId: Option<string>)

  datatype Deletion = Deletion(deleted: bool, sent: seq<DeleteRequest>)

  /** The delete handler's two nested `try` blocks: the POST form is sent only
      when the DELETE form failed, and the performance counts as deleted when
      either succeeded. */
  function DeleteWithFallback(perfId: string, userId: Option<string>, byId: Reply, byPost: Reply): (d: Deletion)
    ensures |d.sent| >= 1 && d.sent[0] == DeleteById(perfId)
    ensures |d.sent| == 2 <==> FetchJson(byId).Fail?
    ensures |d.sent| <= 2 && (|d.sent| == 2 ==> d.sent[1] == DeleteByPost(perfId, userId))
    ensures d.deleted <==> FetchJson(byId).Ok? || FetchJson(byPost).Ok?
  {
    if FetchJson(byId).Ok? then Deletion(true, [DeleteById(perfId)])
    else Deletion(FetchJson(byPost).Ok?, [DeleteById(perfId), DeleteByPost(perfId, userId)])
  }
}

/**
 * What a request to the REST backend comes back with, as seen by `fetch`
 * and by axios. The body is the already decoded JSON value.
 */
module Http {

  import opened Common
  import opened Js

  datatype Reply =
    | Network(message: string)
    | Response(status: int, statusText: string, body: Json)

  /** `res.ok`; axios resolves exactly for these statuses and rejects for the rest. */
  predicate Ok(r: Reply)
  {
    r.Response? && 200 <= r.status < 300
  }

  /** `error.response` of a rejected axios call: present when the server answered. */
  predicate HasResponse(r: Reply)
  {
    r.Response?
  }

  /** `error.response?.data?.message` */
  function ServerMessage(r: Reply): Json
  {
    if r.Response? then Get(r.body, "message") else Undefined
  }

  /**
   * The photo list of a listing reply: `data.photos` when `data` is truthy
   * and that field is an array.
   */
  function PhotoList(body: Json): Option<seq<Json>>
  {
    if Truthy(body) && Get(body, "photos").Arr? then Some(Get(body, "photos").items) else None
  }
}

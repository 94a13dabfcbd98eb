/**
 * The shared axios instance: a request interceptor that attaches the stored
 * access token, and a response interceptor that answers a 401 by refreshing
 * the tokens once and replaying the request.
 *
 * The server is represented by the replies it gives: the first reply to the
 * request, the reply to the refresh call, and the reply to the replay.
 */
module Api {

  import opened Common
  import opened Js
  import opened Http

  /** A request as it went out on the wire. */
  datatype Sent = Sent(path: string, authorization: Option<string>)

  /** How the promise of `api(request)` settles. */
  datatype Settled = Resolved(response: Reply) | Rejected(error: Reply)

  /** The promise axios itself returns for one reply: resolved for 2xx, rejected otherwise. */
  function Settle(r: Reply): Settled
  {
    if Ok(r) then Resolved(r) else Rejected(r)
  }

  /** A 401 from the server. */
  predicate Unauthorized(r: Reply)
  {
    r.Response? && r.status == 401
  }

  /**
   * The two tokens of a successful refresh reply. `None` when the refresh is
   * rejected, when its data is nullish (the destructuring throws) or when a
   * token is not a string; each of these ends in the catch.
   */
  function RefreshedTokens(r: Reply): Option<(string, string)>
  {
    if Ok(r) && Get(r.body, "accessToken").Str? && Get(r.body, "refreshToken").Str?
    then Some((Get(r.body, "accessToken").s, Get(r.body, "refreshToken").s))
    else None
  }

  /** The header after the request interceptor: `Bearer <token>` only when a token is stored. */
  function Attached(store: Storage, header: Option<string>): Option<string>
  {
    var token := GetItem(store, "accessToken");
    if Given(token) then Some("Bearer " + token.value) else header
  }

  /** The per-request config the interceptors mutate: the `_retry` flag and the Authorization header. */
  class PendingRequest {
    const path: string
    var retry: bool
    var authorization: Option<string>

    constructor (path: string, authorization: Option<string>)
      ensures this.path == path && !retry && this.authorization == authorization
    {
      this.path := path;
      retry := false;
      this.authorization := authorization;
    }
  }

  class ApiClient {
    var storage: Storage
    /** Every request sent through the instance, in order. */
    var wire: seq<Sent>
    /** The Authorization header of every refresh call, in order. */
    var refreshCalls: seq<string>

    constructor (stored: Storage)
      ensures storage == stored && wire == [] && refreshCalls == []
    {
      storage := stored;
      wire := [];
      refreshCalls := [];
    }

    /** The request interceptor, applied to the request's config in place. */
    method AttachToken(req: PendingRequest)
      modifies req`authorization
      ensures req.authorization == Attached(storage, old(req.authorization))
    {
      var token := GetItem(storage, "accessToken");
      if Given(token) {
        req.authorization := Some("Bearer " + token.value);
      }
    }

    /**
     * `api(request)`: the interceptor attaches the token, the request goes
     * out, and a 401 on a request not yet retried marks it retried, refreshes
     * with the stored refresh token and, on success, stores both new tokens,
     * rewrites the header and replays the request through the instance.
     * Everything else rejects with the error it got.
     */
    method Dispatch(req: PendingRequest, first: Reply, refresh: Reply, replay: Reply) returns (result: Settled)
      modifies this`storage, this`wire, this`refreshCalls, req`retry, req`authorization
      decreases if req.retry then 0 else 1
      ensures |old(wire)| < |wire| <= |old(wire)| + (if old(req.retry) then 1 else 2)
      ensures |refreshCalls| <= |old(refreshCalls)| + (if old(req.retry) then 0 else 1)
      ensures |old(refreshCalls)| <= |refreshCalls|
      ensures wire[..|old(wire)|] == old(wire) && refreshCalls[..|old(refreshCalls)|] == old(refreshCalls)
      ensures wire[|old(wire)|] == Sent(req.path, Attached(old(storage), old(req.authorization)))
      ensures req.retry == (old(req.retry) || Unauthorized(first))
      ensures old(req.retry) || !Unauthorized(first) ==> result == Settle(first) && storage == old(storage) && |wire| == |old(wire)| + 1
      ensures old(req.retry) || !Unauthorized(first) ==> refreshCalls == old(refreshCalls)
      ensures old(req.retry) || !Unauthorized(first) || !Given(GetItem(old(storage), "refreshToken")) || RefreshedTokens(refresh).None?
        ==> req.authorization == Attached(old(storage), old(req.authorization))
      ensures !old(req.retry) && Unauthorized(first) && !Given(GetItem(old(storage), "refreshToken"))
        ==> result == Rejected(first) && storage == old(storage) && refreshCalls == old(refreshCalls) && |wire| == |old(wire)| + 1
      ensures !old(req.retry) && Unauthorized(first) && Given(GetItem(old(storage), "refreshToken"))
        ==> refreshCalls == old(refreshCalls) + ["Bearer " + old(storage)["refreshToken"]]
      ensures !old(req.retry) && Unauthorized(first) && Given(GetItem(old(storage), "refreshToken")) && RefreshedTokens(refresh).None?
        ==> result == Rejected(first) && storage == old(storage) && |wire| == |old(wire)| + 1
      ensures !old(req.retry) && Unauthorized(first) && Given(GetItem(old(storage), "refreshToken")) && RefreshedTokens(refresh).Some?
        ==> (var (access, renewed) := RefreshedTokens(refresh).value;
             storage == old(storage)["accessToken" := access]["refreshToken" := renewed]
             && req.authorization == Some("Bearer " + access)
             && |wire| == |old(wire)| + 2 && wire[|old(wire)| + 1] == Sent(req.path, Some("Bearer " + access))
             && result == Settle(replay))
    {
      AttachToken(req);
      wire := wire + [Sent(req.path, req.authorization)];
      if !Unauthorized(first) || req.retry {
        return Settle(first);
      }
      req.retry := true;
      var refreshToken := GetItem(storage, "refreshToken");
      if !Given(refreshToken) {
        return Rejected(first);
      }
      refreshCalls := refreshCalls + ["Bearer " + refreshToken.value];
      var tokens := RefreshedTokens(refresh);
      if tokens.None? {
        return Rejected(first);
      }
      var (access, renewed) := tokens.value;
      storage := storage["accessToken" := access]["refreshToken" := renewed];
      req.authorization := Some("Bearer " + access);
      ghost var before := wire;
      result := Dispatch(req, replay, refresh, replay);
      assert wire[..|before|] == before;
    }
  }
}

/**
 * The `usePhotos` hook: one page of the public photo feed, with its error
 * classification, the response-shape check and the record mapping.
 */
module UsePhotos {

  import opened Common
  import opened Js
  import opened Http

  const NotFoundText := "Không tìm thấy ảnh. Vui lòng kiểm tra API."
  const StatusPrefix := "Lỗi khi lấy dữ liệu ảnh: "
  const NoListText := "Dữ liệu trả về không chứa danh sách ảnh."
  const DefaultText := "Có lỗi xảy ra khi lấy dữ liệu ảnh"

  /** The owner as the feed keeps it. */
  datatype Owner = Owner(id: Json, name: Json, email: Json)

  /** A feed photo: `_id` becomes `id` and the owner is reduced to three fields. */
  datatype FeedPhoto = FeedPhoto(
    id: Json, imageUrl: Json, description: Json, keywords: Json,
    user: Owner, likes: Json, createdAt: Json, updatedAt: Json)

  /** The mapping of one record; `None` when the record or its `user` is nullish and reading them throws. */
  function ToFeedPhoto(p: Json): Option<FeedPhoto>
  {
    if Nullish(p) || Nullish(Get(p, "user")) then None
    else
      var u := Get(p, "user");
      Some(FeedPhoto(Get(p, "_id"), Get(p, "imageUrl"), Get(p, "description"), Get(p, "keywords"),
                     Owner(Get(u, "_id"), Get(u, "name"), Get(u, "email")),
                     Get(p, "likes"), Get(p, "createdAt"), Get(p, "updatedAt")))
  }

  /** A record the mapping can read. */
  predicate Mappable(p: Json)
  {
    !Nullish(p) && !Nullish(Get(p, "user"))
  }

  /** The map over the list: order and length kept; one unreadable record makes it throw. */
  function ToFeed(ps: seq<Json>): (r: Option<seq<FeedPhoto>>)
    ensures r.Some? <==> forall i :: 0 <= i < |ps| ==> Mappable(ps[i])
    ensures r.Some? ==> |r.value| == |ps| && forall i :: 0 <= i < |ps| ==> Some(r.value[i]) == ToFeedPhoto(ps[i])
  {
    if ps == [] then Some([])
    else
      if !Mappable(ps[0]) then None
      else
      var rest := ToFeed(ps[1..]);
      if rest.None? then
        var i :| 0 <= i < |ps[1..]| && !Mappable(ps[1..][i]);
        assert ps[i + 1] == ps[1..][i];
        None
      else
        var r := [ToFeedPhoto(ps[0]).value] + rest.value;
        assert forall i :: 1 <= i < |ps| ==> r[i] == rest.value[i - 1] && ps[i] == ps[1..][i - 1];
        Some(r)
  }

  datatype FeedResult = Loaded(photos: seq<FeedPhoto>) | Failed(message: string)

  /** `err.message || 'Có lỗi xảy ra khi lấy dữ liệu ảnh'` */
  function ErrorText(message: string): string
  {
    if message != "" then message else DefaultText
  }

  /** What one fetch ends with, for the reply of `fetch` (already decoded). */
  function Outcome(reply: Reply): (r: FeedResult)
    ensures reply.Network? ==> r == Failed(if reply.message != "" then reply.message else DefaultText)
    ensures Ok(reply) && Nullish(reply.body) ==> r == Failed(TypeErrorMessage)
    ensures Ok(reply) && !Nullish(reply.body) && Get(reply.body, "photos").Arr? && ToFeed(Get(reply.body, "photos").items).None?
      ==> r == Failed(TypeErrorMessage)
    ensures reply.Response? && !Ok(reply) && reply.status == 404 ==> r == Failed(NotFoundText)
    ensures reply.Response? && !Ok(reply) && reply.status != 404 ==> r == Failed(StatusPrefix + reply.statusText)
    ensures Ok(reply) && !Nullish(reply.body) && !(Truthy(Get(reply.body, "photos")) && Get(reply.body, "photos").Arr?) ==> r == Failed(NoListText)
    ensures r.Loaded? <==> Ok(reply) && !Nullish(reply.body) && Get(reply.body, "photos").Arr? && ToFeed(Get(reply.body, "photos").items).Some?
    ensures r.Loaded? ==> r.photos == ToFeed(Get(reply.body, "photos").items).value
  {
    match reply
    case Network(message) => Failed(ErrorText(message))
    case Response(status, statusText, body) =>
      if !Ok(reply) then
        if status == 404 then Failed(NotFoundText) else Failed(StatusPrefix + statusText)
      else if Nullish(body) then Failed(TypeErrorMessage)
      else
        var photos := Get(body, "photos");
        if !Truthy(photos) || !photos.Arr? then Failed(NoListText)
        else
          var mapped := ToFeed(photos.items);
          if mapped.None? then Failed(TypeErrorMessage) else Loaded(mapped.value)
  }

  /** A failure always shows some text. */
  lemma FailureHasText(reply: Reply)
    requires Outcome(reply).Failed?
    ensures Outcome(reply).message != ""
  {
    assert DefaultText[0] == 'C';
    assert TypeErrorMessage[0] == 'T';
    assert NoListText[0] == 'D' && NotFoundText[0] == 'K';
    if reply.Response? {
      assert (StatusPrefix + reply.statusText)[0] == StatusPrefix[0];
    }
  }

  /** The hook's default arguments; a call without them is `new PhotoFeed(DefaultPage, DefaultLimit)`. */
  const DefaultPage := 1
  const DefaultLimit := 10

  /** The query of the feed request. */
  datatype FeedRequest = FeedRequest(page: int, limit: int)

  class PhotoFeed {
    const page: int
    const limit: int
    var photos: seq<FeedPhoto>
    var loading: bool
    /** `None` when no error is shown. */
    var error: Option<string>

    constructor (page: int, limit: int)
      ensures this.page == page && this.limit == limit && photos == [] && loading && error.None?
    {
      this.page := page;
      this.limit := limit;
      photos := [];
      loading := true;
      error := None;
    }

    /**
     * `fetchPhotos`, with the reply taken as a parameter: success replaces the
     * list and clears the error; failure empties the list and sets the message.
     */
    method FetchPhotos(reply: Reply) returns (request: FeedRequest)
      modifies this`photos, this`loading, this`error
      ensures request == FeedRequest(page, limit) && !loading
      ensures Outcome(reply).Loaded? ==> photos == Outcome(reply).photos && error.None?
      ensures Outcome(reply).Failed? ==> photos == [] && error == Some(Outcome(reply).message)
    {
      loading := true;
      request := FeedRequest(page, limit);
      var outcome := Outcome(reply);
      match outcome {
        case Loaded(ps) =>
          photos := ps;
          error := None;
        case Failed(message) =>
          error := Some(message);
          photos := [];
      }
      loading := false;
    }
  }
}

/**
 * The photo detail screen: the id used for requests, liking, loading the
 * full record, which record is displayed, and switching its visibility.
 *
 * The effect that copies `likes` from the detail whenever the detail value
 * changes is folded into the methods that change it.
 */
module PhotoDetail {

  import opened Common
  import opened Js
  import opened Http

  const NeedLogin := "Bạn cần đăng nhập để thực hiện thao tác này"
  const LikeFailed := "Có lỗi xảy ra khi like ảnh"

  /** `photo._id ?? photo.id` */
  function PhotoId(photo: Json): Json
  {
    Coalesce(Get(photo, "_id"), Get(photo, "id"))
  }

  /** `data.likes !== undefined || (data.photo && data.photo.likes !== undefined)`, on truthy data. */
  predicate CarriesLikes(data: Json)
  {
    Truthy(data) && (!Get(data, "likes").Undefined? || (Truthy(Get(data, "photo")) && !Get(Get(data, "photo"), "likes").Undefined?))
  }

  /** `data.likes ?? data.photo?.likes` */
  function NewLikes(data: Json): Json
  {
    Coalesce(Get(data, "likes"), Get(Get(data, "photo"), "likes"))
  }

  /** A `null` top-level count passes the guard and is then replaced by the nested one, even when that is undefined. */
  lemma NullLikesFallThrough()
    ensures CarriesLikes(Obj(map["likes" := Null])) && NewLikes(Obj(map["likes" := Null])) == Undefined
  {
    assert Get(Obj(map["likes" := Null]), "photo") == Undefined;
  }

  /** The text axios gives a rejected request. */
  function AxiosMessage(r: Reply): string
  {
    match r
    case Network(message) => message
    case Response(status, _, _) => "Request failed with status code " + IntToDecimal(status)
  }

  /** `data.user ? data : data.photo || data`; `None` when the data is nullish and this throws. */
  function Detail(data: Json): Option<Json>
  {
    if Nullish(data) then None
    else if Truthy(Get(data, "user")) then Some(data)
    else Some(Or(Get(data, "photo"), data))
  }

  /** The properties `{...v}` copies; only objects are modelled as having any. */
  function Spread(v: Json): map<string, Json>
  {
    if v.Obj? then v.fields else map[]
  }

  /** `prev ? { ...prev, isPublic: !prev.isPublic } : null` */
  function Toggled(prev: Json): (next: Json)
    ensures !Truthy(prev) ==> next == Null
    ensures Truthy(prev) ==> next.Obj? && Get(next, "isPublic") == Bool(!Truthy(Get(prev, "isPublic")))
    ensures Truthy(prev) ==> forall k :: k in Spread(prev) && k != "isPublic" ==> Get(next, k) == Get(prev, k)
  {
    if Truthy(prev) then Obj(Spread(prev)["isPublic" := Bool(!Truthy(Get(prev, "isPublic")))]) else Null
  }

  /** Toggling a loaded object detail with a boolean `isPublic` twice restores it. */
  lemma ToggleTwiceRestores(prev: Json)
    requires prev.Obj? && "isPublic" in prev.fields && prev.fields["isPublic"].Bool?
    ensures Toggled(Toggled(prev)) == prev
  {
    assert Toggled(Toggled(prev)).fields == prev.fields;
  }

  class PhotoDetailSession {
    /** The record the route opened the screen with. */
    const photo: Json
    const photoId: Json
    const storage: Storage
    var likes: Json
    /** The full record once loaded; `Null` before. */
    var photoData: Json
    var loadingDetail: bool

    /** The screen reads `_id` of the route photo as it renders, so it needs one. */
    constructor (routePhoto: Json, stored: Storage)
      requires !Nullish(routePhoto)
      ensures photo == routePhoto && photoId == PhotoId(routePhoto) && storage == stored
      ensures likes == Get(routePhoto, "likes") && photoData == Null && loadingDetail
    {
      photo := routePhoto;
      photoId := PhotoId(routePhoto);
      storage := stored;
      likes := Get(routePhoto, "likes");
      photoData := Null;
      loadingDetail := true;
    }

    /** `currentPhoto`: the loaded detail when it is truthy, else the route photo. */
    function CurrentPhoto(): Json
      reads this`photoData
    {
      Or(photoData, photo)
    }

    /**
     * `handleLike`, with the server's reply taken as a parameter. Returns the
     * id the request was sent for, if one was sent, and the alert shown.
     */
    method Like(reply: Reply) returns (request: Option<Json>, alert: Option<string>)
      modifies this`likes
      ensures request.Some? <==> Given(GetItem(storage, "accessToken"))
      ensures request.Some? ==> request.value == photoId
      ensures request.None? ==> alert == Some(NeedLogin) && likes == old(likes)
      ensures request.Some? && Ok(reply) ==> alert.None?
      ensures request.Some? && Ok(reply) && CarriesLikes(reply.body) ==> likes == NewLikes(reply.body)
      ensures request.Some? && !(Ok(reply) && CarriesLikes(reply.body)) ==> likes == old(likes)
      ensures request.Some? && !Ok(reply) ==> alert == Some(if AxiosMessage(reply) != "" then AxiosMessage(reply) else LikeFailed)
    {
      if !Given(GetItem(storage, "accessToken")) {
        return None, Some(NeedLogin);
      }
      request := Some(photoId);
      alert := None;
      if Ok(reply) {
        if CarriesLikes(reply.body) {
          likes := NewLikes(reply.body);
        }
      } else {
        var message := AxiosMessage(reply);
        alert := Some(if message != "" then message else LikeFailed);
      }
    }

    /**
     * The detail fetch, with the reply taken as a parameter. A usable reply
     * replaces the detail and, when the result is truthy, the like count.
     */
    method LoadDetail(reply: Reply)
      modifies this`photoData, this`likes, this`loadingDetail
      ensures !loadingDetail
      ensures Ok(reply) && Detail(reply.body).Some? ==> photoData == Detail(reply.body).value
      ensures !(Ok(reply) && Detail(reply.body).Some?) ==> photoData == old(photoData) && likes == old(likes)
      ensures Ok(reply) && Detail(reply.body).Some? && Truthy(photoData) ==> likes == Get(photoData, "likes")
      ensures Ok(reply) && Detail(reply.body).Some? && !Truthy(photoData) ==> likes == old(likes)
    {
      if Ok(reply) {
        var d := Detail(reply.body);
        if d.Some? {
          photoData := d.value;
          if Truthy(photoData) {
            likes := Get(photoData, "likes");
          }
        }
      }
      loadingDetail := false;
    }

    /**
     * `togglePhotoVisibility`: a local flip of `isPublic` on a loaded detail;
     * the new detail value re-runs the like-count sync.
     */
    method ToggleVisibility()
      modifies this`photoData, this`likes
      ensures photoData == Toggled(old(photoData))
      ensures Truthy(old(photoData)) ==> likes == Get(photoData, "likes")
      ensures !Truthy(old(photoData)) ==> photoData == Null && likes == old(likes)
    {
      photoData := Toggled(photoData);
      if Truthy(photoData) {
        likes := Get(photoData, "likes");
      }
    }
  }
}

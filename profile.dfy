/**
 * The signed-in user's profile screen: the profile derived from the stored
 * user, the own-photo and liked-photo lists, deleting a photo, switching its
 * visibility, and logging out.
 */
module Profile {

  import opened Common
  import opened Js
  import opened Http

  /** The header card: name, `@handle` and the database id. */
  datatype ProfileInfo = ProfileInfo(name: Json, username: string, id: Json)

  /** A photo as the grid shows it. */
  datatype PhotoItem = PhotoItem(id: Json, imageUrl: Json, description: Json, isPublic: Json)

  /** `s.split('@')[0]`: everything before the first `@`, or all of `s`. */
  function BeforeFirstAt(s: string): (r: string)
    ensures r <= s && '@' !in r
    ensures |r| < |s| ==> s[|r|] == '@'
  {
    if s == [] || s[0] == '@' then ""
    else [s[0]] + BeforeFirstAt(s[1..])
  }

  /**
   * The profile `loadProfile` derives from the parsed stored user; `None`
   * when that throws: a nullish user, or an `email` that is not a string.
   */
  function DeriveProfile(user: Json): (p: Option<ProfileInfo>)
    ensures p.Some? <==> !Nullish(user) && Get(user, "email").Str?
    ensures p.Some? ==> p.value.name == Get(user, "name")
    ensures p.Some? ==> p.value.id == (if Nullish(Get(user, "_id")) then Get(user, "id") else Get(user, "_id"))
  {
    if Nullish(user) then None
    else
      var email := Get(user, "email");
      if !email.Str? then None
      else Some(ProfileInfo(Get(user, "name"), "@" + BeforeFirstAt(email.s), Coalesce(Get(user, "_id"), Get(user, "id"))))
  }

  /** The handle is `@` followed by the local part of the address. */
  lemma HandleIsLocalPart(user: Json, local: string, domain: string)
    requires user.Obj? && Get(user, "email") == Str(local + "@" + domain)
    requires '@' !in local
    ensures DeriveProfile(user).Some? && DeriveProfile(user).value.username == "@" + local
  {
    var s := local + "@" + domain;
    var r := BeforeFirstAt(s);
    assert s[..|local|] == local && s[|local|] == '@';
    assert r == s[..|r|];
  }

  /** `{ id: photo._id, imageUrl, description, isPublic }`; `None` when the photo is nullish. */
  function TransformPhoto(p: Json): Option<PhotoItem>
  {
    if Nullish(p) then None
    else Some(PhotoItem(Get(p, "_id"), Get(p, "imageUrl"), Get(p, "description"), Get(p, "isPublic")))
  }

  /** The transform over a whole list: order and length are kept; a nullish entry makes it throw. */
  function TransformAll(ps: seq<Json>): (r: Option<seq<PhotoItem>>)
    ensures r.Some? <==> forall i :: 0 <= i < |ps| ==> !Nullish(ps[i])
    ensures r.Some? ==> |r.value| == |ps| && forall i :: 0 <= i < |ps| ==> Some(r.value[i]) == TransformPhoto(ps[i])
  {
    if ps == [] then Some([])
    else
      var rest := TransformAll(ps[1..]);
      if Nullish(ps[0]) || rest.None? then
        assert Nullish(ps[0]) || exists i :: 0 <= i < |ps[1..]| && Nullish(ps[1..][i]);
        None
      else
        var r := [TransformPhoto(ps[0]).value] + rest.value;
        assert forall i :: 1 <= i < |ps| ==> r[i] == rest.value[i - 1] && ps[i] == ps[1..][i - 1];
        Some(r)
  }

  /** `hay.includes(needle)` for strings. */
  predicate ContainsText(hay: string, needle: string)
    decreases |hay|
  {
    needle <= hay || (hay != [] && ContainsText(hay[1..], needle))
  }

  /**
   * `likedBy.includes(id)`: membership for an array, substring search for a
   * string (with the id converted); `None` for anything else, which has no
   * `includes` and throws.
   */
  function Includes(likedBy: Json, id: Json): Option<bool>
  {
    if likedBy.Arr? then Some(id in likedBy.items)
    else if likedBy.Str? then Some(ContainsText(likedBy.s, ToStr(id)))
    else None
  }

  /** `photo.likedBy && profile && photo.likedBy.includes(profile.id)`; `None` when it throws. */
  function IsLiked(photo: Json, profile: Option<ProfileInfo>): Option<bool>
  {
    if Nullish(photo) then None
    else if !Truthy(Get(photo, "likedBy")) || profile.None? then Some(false)
    else Includes(Get(photo, "likedBy"), profile.value.id)
  }

  /** The liked filter of `fetchLikedPhotos`; `None` when the callback throws on some photo. */
  function LikedFilter(ps: seq<Json>, profile: Option<ProfileInfo>): (r: Option<seq<Json>>)
    ensures r.None? <==> exists i :: 0 <= i < |ps| && IsLiked(ps[i], profile).None?
    ensures r.Some? ==> forall x :: x in r.value ==> x in ps && IsLiked(x, profile) == Some(true)
    ensures r.Some? ==> forall i :: 0 <= i < |ps| && IsLiked(ps[i], profile) == Some(true) ==> ps[i] in r.value
  {
    if ps == [] then Some([])
    else
      var head := IsLiked(ps[0], profile);
      var rest := LikedFilter(ps[1..], profile);
      if head.None? || rest.None? then
        assert forall i :: 0 <= i < |ps[1..]| ==> ps[1..][i] == ps[i + 1];
        None
      else
        assert forall i :: 1 <= i < |ps| ==> ps[i] == ps[1..][i - 1];
        Some((if head.value then [ps[0]] else []) + rest.value)
  }

  /** Without a profile no photo counts as liked. */
  lemma NoProfileNoLikes(ps: seq<Json>)
    requires forall i :: 0 <= i < |ps| ==> !Nullish(ps[i])
    ensures LikedFilter(ps, None) == Some([])
  {
    if ps != [] {
      assert LikedFilter(ps, None).Some?;
    }
  }

  /** `photos.filter(photo => photo.id !== id)` */
  function RemoveId(ps: seq<PhotoItem>, id: Json): (r: seq<PhotoItem>)
    ensures |r| <= |ps|
    ensures forall x :: x in r ==> x in ps && x.id != id
  {
    if ps == [] then []
    else (if ps[0].id == id then [] else [ps[0]]) + RemoveId(ps[1..], id)
  }

  /** Deleting removes every photo with that id and keeps every other photo, with its multiplicity. */
  lemma {:induction false} RemoveIdKeepsOthers(ps: seq<PhotoItem>, id: Json)
    ensures forall x: PhotoItem :: x.id != id ==> multiset(RemoveId(ps, id))[x] == multiset(ps)[x]
    ensures forall x: PhotoItem :: x.id == id ==> multiset(RemoveId(ps, id))[x] == 0
  {
    if ps != [] {
      RemoveIdKeepsOthers(ps[1..], id);
      assert ps == [ps[0]] + ps[1..];
    }
  }

  /** `photos.map(p => p.id === id ? {...p, isPublic} : p)` */
  function SetVisibility(ps: seq<PhotoItem>, id: Json, isPublic: Json): (r: seq<PhotoItem>)
    ensures |r| == |ps|
    ensures forall i :: 0 <= i < |ps| ==> r[i] == (if ps[i].id == id then ps[i].(isPublic := isPublic) else ps[i])
  {
    if ps == [] then []
    else [if ps[0].id == id then ps[0].(isPublic := isPublic) else ps[0]] + SetVisibility(ps[1..], id, isPublic)
  }

  /** The first photo with that id, as `photos.find` returns it. */
  function FindPhoto(ps: seq<PhotoItem>, id: Json): (r: Option<PhotoItem>)
    ensures r.None? <==> forall i :: 0 <= i < |ps| ==> ps[i].id != id
    ensures r.Some? ==> exists i :: 0 <= i < |ps| && ps[i] == r.value && r.value.id == id && forall j :: 0 <= j < i ==> ps[j].id != id
  {
    if ps == [] then None
    else if ps[0].id == id then Some(ps[0])
    else
      var r := FindPhoto(ps[1..], id);
      if r.Some? then
        var i :| 0 <= i < |ps[1..]| && ps[1..][i] == r.value && r.value.id == id && forall j :: 0 <= j < i ==> ps[1..][j].id != id;
        assert ps[i + 1] == r.value && forall j :: 0 <= j < i + 1 ==> ps[j].id != id;
        r
      else r
  }

  /** What the own-photo request leaves in the grid: the transformed list, or nothing usable. */
  function OwnPhotos(reply: Reply): Option<seq<PhotoItem>>
  {
    if !Ok(reply) then None
    else
      var ps := PhotoList(reply.body);
      if ps.None? then None else TransformAll(ps.value)
  }

  /** The response-shape checks of `fetchLikedPhotos`, then the filter and the transform. */
  function LikedPhotos(reply: Reply, profile: Option<ProfileInfo>): Option<seq<PhotoItem>>
  {
    if !Ok(reply) then None
    else
      var ps := PhotoList(reply.body);
      if ps.None? then None
      else
        var liked := LikedFilter(ps.value, profile);
        if liked.None? then None else TransformAll(liked.value)
  }

  /** A 401 from the server, which ends the session instead of clearing the list. */
  predicate Unauthorized(reply: Reply)
  {
    reply.Response? && reply.status == 401
  }

  /** The keys logging out removes from storage. */
  const SessionKeys: set<string> := {"accessToken", "refreshToken", "user"}

  class ProfileSession {
    var storage: Storage
    var profile: Option<ProfileInfo>
    var postsCount: int
    var photos: seq<PhotoItem>
    var likedPhotos: seq<PhotoItem>
    var isLoading: bool
    var likedPhotosLoading: bool
    /** Set once the screen has sent the user to the login screen. */
    var atLogin: bool

    constructor (stored: Storage)
      ensures storage == stored && profile.None? && postsCount == 0 && photos == [] && likedPhotos == []
      ensures !isLoading && !likedPhotosLoading && !atLogin
    {
      storage := stored;
      profile := None;
      postsCount := 0;
      photos := [];
      likedPhotos := [];
      isLoading := false;
      likedPhotosLoading := false;
      atLogin := false;
    }

    /**
     * `loadProfile`, with the result of `JSON.parse` on the stored user text
     * taken as a parameter (`None` when it throws). Returns whether the first
     * photo fetch starts.
     */
    method LoadProfile(parsedUser: Option<Json>) returns (fetch: bool)
      modifies this`profile, this`atLogin
      ensures fetch <==> (Given(GetItem(storage, "accessToken")) && Given(GetItem(storage, "user"))
        && parsedUser.Some? && DeriveProfile(parsedUser.value).Some?)
      ensures fetch ==> profile == DeriveProfile(parsedUser.value) && atLogin == old(atLogin)
      ensures !fetch ==> profile == old(profile) && atLogin
    {
      if !Given(GetItem(storage, "accessToken")) || !Given(GetItem(storage, "user")) || parsedUser.None? {
        atLogin := true;
        return false;
      }
      var derived := DeriveProfile(parsedUser.value);
      if derived.None? {
        atLogin := true;
        return false;
      }
      profile := derived;
      fetch := true;
    }

    /**
     * `fetchPhotos`, with the server's reply taken as a parameter. Returns
     * whether the request was sent and whether a logout was started.
     */
    method FetchPhotos(reply: Reply) returns (sent: bool, logout: bool)
      modifies this`photos, this`postsCount, this`isLoading
      ensures !isLoading
      ensures sent <==> Given(GetItem(storage, "accessToken"))
      ensures logout <==> sent && Unauthorized(reply)
      ensures sent && OwnPhotos(reply).Some? ==> photos == OwnPhotos(reply).value && postsCount == |photos|
      ensures logout ==> photos == old(photos) && postsCount == old(postsCount)
      ensures !(sent && OwnPhotos(reply).Some?) && !logout ==> photos == [] && postsCount == old(postsCount)
    {
      isLoading := true;
      sent := Given(GetItem(storage, "accessToken"));
      logout := false;
      if !sent {
        photos := [];
      } else {
        var result := OwnPhotos(reply);
        if result.Some? {
          photos := result.value;
          postsCount := |result.value|;
        } else if Unauthorized(reply) {
          logout := true;
        } else {
          photos := [];
        }
      }
      isLoading := false;
    }

    /** `fetchLikedPhotos`, with the server's reply taken as a parameter. */
    method FetchLikedPhotos(reply: Reply) returns (sent: bool)
      modifies this`likedPhotos, this`likedPhotosLoading
      ensures !likedPhotosLoading
      ensures sent <==> Given(GetItem(storage, "accessToken"))
      ensures sent && LikedPhotos(reply, profile).Some? ==> likedPhotos == LikedPhotos(reply, profile).value
      ensures !(sent && LikedPhotos(reply, profile).Some?) ==> likedPhotos == []
    {
      likedPhotosLoading := true;
      sent := Given(GetItem(storage, "accessToken"));
      var result := LikedPhotos(reply, profile);
      if sent && result.Some? {
        likedPhotos := result.value;
      } else {
        likedPhotos := [];
      }
      likedPhotosLoading := false;
    }

    /**
     * `handleLogout`: the logout call carries the bearer token when one is
     * stored; whatever it returns, the session keys are removed and the
     * login screen is shown.
     */
    method Logout() returns (authorization: Option<string>)
      modifies this`storage, this`atLogin
      ensures authorization == (if Given(GetItem(old(storage), "accessToken")) then Some("Bearer " + old(storage)["accessToken"]) else None)
      ensures storage == RemoveKeys(old(storage), SessionKeys) && atLogin
    {
      var token := GetItem(storage, "accessToken");
      authorization := if Given(token) then Some("Bearer " + token.value) else None;
      storage := RemoveKeys(storage, SessionKeys);
      atLogin := true;
    }

    /**
     * `toggleVisibility`, with the server's reply taken as a parameter: no
     * request for an unknown id; otherwise the request asks for the negated
     * visibility, and a reply carrying `photo` sets that photo's `isPublic`
     * on every entry with the id.
     */
    method ToggleVisibility(id: Json, reply: Reply) returns (request: Option<Json>)
      modifies this`photos
      ensures request.None? <==> FindPhoto(old(photos), id).None?
      ensures request.Some? ==> request.value == Bool(!Truthy(FindPhoto(old(photos), id).value.isPublic))
      ensures request.Some? && Ok(reply) && !Nullish(Get(reply.body, "photo"))
        ==> photos == SetVisibility(old(photos), id, Get(Get(reply.body, "photo"), "isPublic"))
      ensures !(request.Some? && Ok(reply) && !Nullish(Get(reply.body, "photo"))) ==> photos == old(photos)
    {
      var target := FindPhoto(photos, id);
      if target.None? {
        return None;
      }
      request := Some(Bool(!Truthy(target.value.isPublic)));
      if Ok(reply) {
        var updated := Get(reply.body, "photo");
        if !Nullish(updated) {
          photos := SetVisibility(photos, id, Get(updated, "isPublic"));
        }
      }
    }

    /**
     * `deletePhoto`, with the server's reply taken as a parameter. A
     * successful delete removes the photo and decrements the count by one.
     */
    method DeletePhoto(id: Json, reply: Reply) returns (sent: bool, logout: bool)
      modifies this`photos, this`postsCount, this`isLoading
      ensures !isLoading
      ensures sent <==> Given(GetItem(storage, "accessToken"))
      ensures logout <==> sent && Unauthorized(reply)
      ensures sent && Ok(reply) ==> photos == RemoveId(old(photos), id) && postsCount == old(postsCount) - 1
      ensures !(sent && Ok(reply)) ==> photos == old(photos) && postsCount == old(postsCount)
    {
      isLoading := true;
      sent := Given(GetItem(storage, "accessToken"));
      logout := sent && Unauthorized(reply);
      if sent && Ok(reply) {
        photos := RemoveId(photos, id);
        postsCount := postsCount - 1;
      }
      isLoading := false;
    }
  }

  /** Switching visibility changes nothing but the `isPublic` of the photos with that id. */
  lemma VisibilityTouchesOnlyTarget(ps: seq<PhotoItem>, id: Json, v: Json)
    ensures forall i :: 0 <= i < |ps| && ps[i].id != id ==> SetVisibility(ps, id, v)[i] == ps[i]
    ensures forall i :: 0 <= i < |ps| ==> SetVisibility(ps, id, v)[i].(isPublic := ps[i].isPublic) == ps[i]
  {
  }

  /** A successful own-photo fetch shows exactly one grid entry per returned photo, in order. */
  lemma OwnPhotosKeepOrder(reply: Reply, i: nat)
    requires OwnPhotos(reply).Some?
    ensures |OwnPhotos(reply).value| == |Get(reply.body, "photos").items|
    ensures i < |OwnPhotos(reply).value| ==> OwnPhotos(reply).value[i].id == Get(Get(reply.body, "photos").items[i], "_id")
  {
  }
}

/**
 * The search screen: a query is sent only when it is not blank, and the
 * reply, whatever its shape, is normalised into result tiles.
 */
module Search {

  import opened Common
  import opened Js
  import opened Http

  /** A result tile; `raw` is the record the detail screen is opened with. */
  datatype SearchItem = SearchItem(id: Json, title: Json, image: Json, raw: Json)

  /**
   * `Array.isArray(data) ? data : data.photos || []`, then `.map`: `None`
   * when this throws, for nullish data or a truthy `photos` that is not an array.
   */
  function ResultItems(data: Json): Option<seq<Json>>
  {
    if data.Arr? then Some(data.items)
    else if Nullish(data) then None
    else
      var photos := Or(Get(data, "photos"), Arr([]));
      if photos.Arr? then Some(photos.items) else None
  }

  /** The tile for one record; `None` when the record is nullish. */
  function ToItem(p: Json): Option<SearchItem>
  {
    if Nullish(p) then None
    else Some(SearchItem(Or(Get(p, "_id"), Get(p, "id")), Or(Get(p, "description"), Get(p, "title")),
                         Or(Or(Get(p, "url"), Get(p, "image")), Get(p, "imageUrl")), p))
  }

  /** The map over all records: order and length kept. */
  function ToItems(ps: seq<Json>): (r: Option<seq<SearchItem>>)
    ensures r.Some? <==> forall i :: 0 <= i < |ps| ==> !Nullish(ps[i])
    ensures r.Some? ==> |r.value| == |ps| && forall i :: 0 <= i < |ps| ==> Some(r.value[i]) == ToItem(ps[i])
  {
    if ps == [] then Some([])
    else
      if Nullish(ps[0]) then None
      else
      var rest := ToItems(ps[1..]);
      if rest.None? then
        var i :| 0 <= i < |ps[1..]| && Nullish(ps[1..][i]);
        assert ps[i + 1] == ps[1..][i];
        None
      else
        var r := [ToItem(ps[0]).value] + rest.value;
        assert forall i :: 1 <= i < |ps| ==> r[i] == rest.value[i - 1] && ps[i] == ps[1..][i - 1];
        Some(r)
  }

  /** The tiles a reply produces, or `None` when the handler throws and the results are kept. */
  function Results(reply: Reply): Option<seq<SearchItem>>
  {
    if !Ok(reply) then None
    else
      var items := ResultItems(reply.body);
      if items.None? then None else ToItems(items.value)
  }

  /** Every tile opens the detail screen with exactly the record it was made from, in reply order. */
  lemma TilesKeepRecords(reply: Reply, i: nat)
    requires Results(reply).Some? && i < |Results(reply).value|
    ensures Results(reply).value[i].raw == ResultItems(reply.body).value[i]
  {
  }

  class SearchSession {
    var query: string
    var searchResults: seq<SearchItem>
    var loading: bool

    constructor ()
      ensures query == "" && searchResults == [] && !loading
    {
      query := "";
      searchResults := [];
      loading := false;
    }

    method EditQuery(text: string)
      modifies this`query
      ensures query == text
    {
      query := text;
    }

    /**
     * `handleSearch`, with the server's reply taken as a parameter. A blank
     * query sends nothing; a failure of any kind keeps the previous results.
     */
    method Search(reply: Reply) returns (sent: Option<string>)
      modifies this`searchResults, this`loading
      ensures sent.Some? <==> Trim(query) != ""
      ensures sent.Some? ==> sent.value == query && !loading
      ensures sent.None? ==> loading == old(loading)
      ensures sent.Some? && Results(reply).Some? ==> searchResults == Results(reply).value
      ensures !(sent.Some? && Results(reply).Some?) ==> searchResults == old(searchResults)
    {
      if Trim(query) == "" {
        return None;
      }
      loading := true;
      sent := Some(query);
      var results := Results(reply);
      if results.Some? {
        searchResults := results.value;
      }
      loading := false;
    }
  }
}

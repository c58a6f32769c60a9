/** `includeRelatedData` and the three fetchers it calls: for every incident
    item with an id it attaches the enabled lists among `Alerts`, `Entities`
    and `Comments`, using `[]` for a fetch that fails. The server is given as
    its answers: one response per alert or entity request (None for a
    rejected request) and the sequence of comment pages an incident's
    `nextLink` chain returns. */
module RelatedData {
  import opened JsonValues
  import opened ResponseShaping

  /** Items per window (`INCIDENT_CONCURRENCY`). */
  const Concurrency: nat := 12

  /** The maps of a list, or None when one element makes the map throw. */
  function MapAll(xs: seq<Json>, f: Json -> Option<Json>): (r: Option<seq<Json>>)
    ensures r.Some? <==> forall i :: 0 <= i < |xs| ==> f(xs[i]).Some?
    ensures r.Some? ==> |r.value| == |xs| && forall i :: 0 <= i < |xs| ==> r.value[i] == f(xs[i]).value
  {
    if |xs| == 0 then Some([])
    else
      var rest := MapAll(xs[1..], f);
      if f(xs[0]).None? || rest.None? then None else Some([f(xs[0]).value] + rest.value)
  }

  /** The simple form of an alert or entity: `id` from `name`, `kind`, then
      the keys of `properties`. Reading a field of `null` throws; any other
      value that is not an object has none of these fields. */
  function SimplifyRelated(el: Json): Option<Json>
  {
    if el.JNull? then None
    else
      var j := AsObject(el);
      Some(JObj(PutOpt(PutOpt(map[], "id", Get(j, "name")), "kind", Get(j, "kind")) + Spread(Get(j, "properties"))))
  }

  /** The simple form of a comment: `id` from `name`, the keys of
      `properties`, then `etag`, which wins over a `properties.etag`. */
  function SimplifyComment(el: Json): Option<Json>
  {
    if el.JNull? then None
    else
      var j := AsObject(el);
      Some(JObj(PutOpt(PutOpt(map[], "id", Get(j, "name")) + Spread(Get(j, "properties")), "etag", Get(j, "etag"))))
  }

  /** `response[key] || []`; reading a field of `null` throws. */
  function Listed(response: Json, key: string): Option<Json>
  {
    if response.JNull? then None
    else
      var v := Field(response, key);
      if v.Some? && Truthy(v.value) then v else Some(JArr([]))
  }

  /** What `fetchIncidentAlerts` (key `value`) or `fetchIncidentEntities`
      (key `entities`) resolves to, or None when it rejects. The raw list is
      returned as it is; the simple map throws on a value that is not an array. */
  function FetchedList(response: Option<Json>, key: string, simple: bool): Option<Json>
  {
    if response.None? then None
    else
      var list := Listed(response.value, key);
      if list.None? then None
      else if !simple then list
      else if !list.value.JArr? then None
      else
        var mapped := MapAll(list.value.elems, SimplifyRelated);
        if mapped.None? then None else Some(JArr(mapped.value))
  }

  /** A fetch that rejects is replaced by `[]`. */
  function OrEmpty(fetched: Option<Json>): (r: Json)
    ensures fetched.Some? ==> r == fetched.value
    ensures fetched.None? ==> r == JArr([])
  {
    if fetched.Some? then fetched.value else JArr([])
  }

  /** In simple mode every listed alert is simplified, in order; the simple
      list is empty when the response lists nothing, and the fetch fails when
      an element is `null`. */
  lemma SimpleAlerts(response: Json, key: string, xs: seq<Json>)
    requires response.JObj? && key in response.fields && response.fields[key] == JArr(xs)
    ensures var r := FetchedList(Some(response), key, true);
            (xs == [] ==> r == Some(JArr([])))
            && (JNull in xs ==> r.None?)
            && (JNull !in xs ==>
                  r.Some? && r.value.JArr? && |r.value.elems| == |xs|
                  && forall i :: 0 <= i < |xs| ==> r.value.elems[i] == SimplifyRelated(xs[i]).value)
  {
    if JNull in xs {
      var i :| 0 <= i < |xs| && xs[i] == JNull;
      assert SimplifyRelated(xs[i]).None?;
    }
  }

  // ---------------------------------------------------------------------------
  // fetchIncidentComments

  /** `prefix` followed by the rest, unless the rest failed. */
  function AppendOpt(prefix: seq<Json>, rest: Option<seq<Json>>): (r: Option<seq<Json>>)
    ensures r.Some? <==> rest.Some?
    ensures r.Some? ==> r.value == prefix + rest.value
  {
    if rest.None? then None else Some(prefix + rest.value)
  }

  /** `[...s]` for a string: one single-character string per character. */
  function Characters(s: string): (r: seq<Json>)
    ensures |r| == |s|
    ensures forall i :: 0 <= i < |s| ==> r[i] == JStr([s[i]])
  {
    seq(|s|, i requires 0 <= i < |s| => JStr([s[i]]))
  }

  /** The comments of one page, or None when reading them throws: a rejected
      request, a `null` page, or a truthy `value` that is not iterable (a
      number, `true` or an object). A falsy `value` gives no comments, a
      string its characters. */
  function PageComments(page: Option<Json>): Option<seq<Json>>
  {
    if page.None? || page.value.JNull? then None
    else
      var v := Field(page.value, "value");
      if v.None? || !Truthy(v.value) then Some([])
      else if v.value.JArr? then Some(v.value.elems)
      else if v.value.JStr? then Some(Characters(v.value.s))
      else None
  }

  /** Whether the page sends the loop on: a truthy `nextLink`. */
  predicate HasNext(page: Json)
  {
    Field(page, "nextLink").Some? && Truthy(Field(page, "nextLink").value)
  }

  /** The comments of pages `i` onward, following `nextLink`, or None when a
      page fails or the pages run out while `nextLink` still points on. */
  function CommentPages(pages: seq<Option<Json>>, i: nat): Option<seq<Json>>
    decreases |pages| - i
  {
    if i >= |pages| then None
    else
      var comments := PageComments(pages[i]);
      if comments.None? then None
      else if HasNext(pages[i].value) then AppendOpt(comments.value, CommentPages(pages, i + 1))
      else Some(comments.value)
  }

  /** What `fetchIncidentComments` resolves to, or None when it rejects. */
  function FetchedComments(pages: seq<Option<Json>>, simple: bool): Option<Json>
  {
    var all := CommentPages(pages, 0);
    if all.None? then None
    else if !simple then Some(JArr(all.value))
    else
      var mapped := MapAll(all.value, SimplifyComment);
      if mapped.None? then None else Some(JArr(mapped.value))
  }

  /** The loop stops at the first page without a `nextLink`: pages after it
      are never read. */
  lemma {:induction false} CommentPagesStop(pages: seq<Option<Json>>, more: seq<Option<Json>>, i: nat)
    requires CommentPages(pages, i).Some?
    ensures CommentPages(pages + more, i) == CommentPages(pages, i)
    decreases |pages| - i
  {
    assert (pages + more)[i] == pages[i];
    if HasNext(pages[i].value) {
      CommentPagesStop(pages, more, i + 1);
    }
  }

  /** `fetchIncidentComments`: a `while (url)` loop accumulating every page. */
  method FetchComments(pages: seq<Option<Json>>, simple: bool) returns (r: Option<Json>)
    ensures r == FetchedComments(pages, simple)
  {
    var all: seq<Json> := [];
    var i := 0;
    assert CommentPages(pages, 0) == AppendOpt([], CommentPages(pages, 0)) by {
      if CommentPages(pages, 0).Some? {
        assert [] + CommentPages(pages, 0).value == CommentPages(pages, 0).value;
      }
    }
    while i < |pages|
      invariant 0 <= i <= |pages|
      invariant CommentPages(pages, 0) == AppendOpt(all, CommentPages(pages, i))
      decreases |pages| - i
    {
      var comments := PageComments(pages[i]);
      if comments.None? {
        return None;
      }
      var next := HasNext(pages[i].value);
      assert next ==> CommentPages(pages, i) == AppendOpt(comments.value, CommentPages(pages, i + 1));
      if next && CommentPages(pages, i + 1).Some? {
        assert all + (comments.value + CommentPages(pages, i + 1).value) == (all + comments.value) + CommentPages(pages, i + 1).value;
      }
      all := all + comments.value;
      if !next {
        break;
      }
      i := i + 1;
    }
    if i == |pages| {
      return None;
    }
    if !simple {
      return Some(JArr(all));
    }
    var mapped := MapAll(all, SimplifyComment);
    if mapped.None? {
      return None;
    }
    r := Some(JArr(mapped.value));
  }

  // ---------------------------------------------------------------------------
  // includeRelatedData

  /** `options.includeAlerts`, `includeEntities`, `includeComments`. */
  datatype Includes = Includes(alerts: bool, entities: bool, comments: bool)

  /** The server's answers, by incident id. */
  datatype Server = Server(alerts: Json -> Option<Json>, entities: Json -> Option<Json>,
                           comments: Json -> seq<Option<Json>>)

  /** The incident id: `json.id` in simple mode, else `json.name`; None when falsy. */
  function IncidentId(json: Props, simple: bool): (r: Option<Json>)
    ensures r.Some? ==> Truthy(r.value)
  {
    var key := if simple then "id" else "name";
    if TruthyAt(json, key) then Some(json[key]) else None
  }

  /** One item's JSON after the window body has run on it. */
  function Enriched(json: Props, inc: Includes, simple: bool, server: Server): Props
  {
    var id := IncidentId(json, simple);
    if id.None? then json
    else
      var j1 := if inc.alerts then json["Alerts" := OrEmpty(FetchedList(server.alerts(id.value), "value", simple))] else json;
      var j2 := if inc.entities then j1["Entities" := OrEmpty(FetchedList(server.entities(id.value), "entities", simple))] else j1;
      if inc.comments then j2["Comments" := OrEmpty(FetchedComments(server.comments(id.value), simple))] else j2
  }

  /** An item with an id gains exactly the enabled keys, each holding its
      fetch or `[]`; an item without one is untouched; every other field is kept. */
  lemma EnrichedFields(json: Props, inc: Includes, simple: bool, server: Server)
    ensures var r := Enriched(json, inc, simple, server);
            var id := IncidentId(json, simple);
            (id.None? ==> r == json)
            && (id.Some? ==>
                  r.Keys == json.Keys + (if inc.alerts then {"Alerts"} else {})
                                      + (if inc.entities then {"Entities"} else {})
                                      + (if inc.comments then {"Comments"} else {})
                  && (inc.alerts ==> r["Alerts"] == OrEmpty(FetchedList(server.alerts(id.value), "value", simple)))
                  && (inc.entities ==> r["Entities"] == OrEmpty(FetchedList(server.entities(id.value), "entities", simple)))
                  && (inc.comments ==> r["Comments"] == OrEmpty(FetchedComments(server.comments(id.value), simple)))
                  && forall k :: k in json && k != "Alerts" && k != "Entities" && k != "Comments" ==> r[k] == json[k])
  {
  }

  /** With nothing to include, nothing changes. */
  lemma NothingIncluded(json: Props, simple: bool, server: Server)
    ensures Enriched(json, Includes(false, false, false), simple, server) == json
  {
  }

  /** `includeRelatedData`: the items are walked in windows of twelve, and
      every item of a window is enriched in place (sequentially here; the
      concurrent branches write distinct keys of distinct items). Returns the
      number of windows. */
  method IncludeRelatedData(items: array<Item>, inc: Includes, simple: bool, server: Server) returns (ghost windows: nat)
    modifies items
    ensures forall i :: 0 <= i < items.Length ==>
              items[i] == old(items[i]).(json := Enriched(old(items[i]).json, inc, simple, server))
    ensures !inc.alerts && !inc.entities && !inc.comments ==> windows == 0 && items[..] == old(items[..])
    ensures inc.alerts || inc.entities || inc.comments ==> windows == (items.Length + Concurrency - 1) / Concurrency
  {
    if !inc.alerts && !inc.comments && !inc.entities {
      forall i | 0 <= i < items.Length
        ensures items[i] == old(items[i]).(json := Enriched(old(items[i]).json, inc, simple, server))
      {
        NothingIncluded(items[i].json, simple, server);
      }
      return 0;
    }
    windows := 0;
    var start := 0;
    while start < items.Length
      invariant start == Concurrency * windows
      invariant windows == 0 || Concurrency * (windows - 1) < items.Length
      invariant forall i :: 0 <= i < items.Length && i < start ==>
                  items[i] == old(items[i]).(json := Enriched(old(items[i]).json, inc, simple, server))
      invariant forall i :: start <= i < items.Length ==> items[i] == old(items[i])
    {
      var j := start;
      while j < start + Concurrency && j < items.Length
        invariant start <= j <= items.Length && j <= start + Concurrency
        invariant forall i :: 0 <= i < items.Length && i < j ==>
                    items[i] == old(items[i]).(json := Enriched(old(items[i]).json, inc, simple, server))
        invariant forall i :: j <= i < items.Length ==> items[i] == old(items[i])
      {
        items[j] := items[j].(json := Enriched(items[j].json, inc, simple, server));
        j := j + 1;
      }
      start := start + Concurrency;
      windows := windows + 1;
    }
  }
}

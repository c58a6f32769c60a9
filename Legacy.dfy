/** The helpers of the older Sentinel node: the OData clause builder, the
    shaping of one request's options, and the two page-collecting loops
    (`nextLink` paging with a `limit`, and `$skip` paging). The HTTP server
    is given as the sequence of its answers to successive requests; `None`
    stands for a request that was rejected (a thrown `NodeApiError`). */
module LegacyRequests {
  import opened JsonValues
  import opened Text
  import ODataFilter

  const Rejected := "NodeApiError"
  /** The server gave no answer within the modelled sequence of answers. */
  const Unanswered := "no response"

  // ---------------------------------------------------------------------
  // addFilter

  /** `(p op 'v1' or p op 'v2' ...)`, built in three appends. */
  function AddFilter(property: string, operator: string, values: seq<string>): (r: string)
    // the older builder and the current one produce the same characters
    ensures r == ODataFilter.ODataClause(property, operator, values)
  {
    var opening := "(" + property + " " + operator + " '";
    var middle := opening + Join(values, "' or " + property + " " + operator + " '");
    middle + "')"
  }

  /** For a non-empty value list the clause is an OR of one comparison per value. */
  lemma AddFilterIsOrGroup(property: string, operator: string, values: seq<string>)
    requires |values| >= 1
    ensures AddFilter(property, operator, values) == ODataFilter.OrGroup(property, operator, values)
  {
    ODataFilter.ODataClauseIsOrGroup(property, operator, values);
  }

  // ---------------------------------------------------------------------
  // microsoftApiRequest: the options handed to the OAuth2 request helper

  const ManagementBase := "https://management.azure.com/subscriptions/"
  const JsonContentType := JStr("application/json")

  /** The options object; `None` for `body`/`qs` means the key was deleted. */
  datatype ApiOptions = ApiOptions(
    headers: Props,
    httpMethod: string,
    body: Option<Props>,
    qs: Option<Props>,
    uri: string,
    json: bool)

  method BuildOptions(httpMethod: string, resource: string, body: Props, qs: Props,
                      uri: Option<string>, headers: Props) returns (o: ApiOptions)
    ensures o.httpMethod == httpMethod && o.json
    ensures o.body.Some? <==> |body| != 0
    ensures o.body.Some? ==> o.body.value == body
    ensures o.qs.Some? <==> |qs| != 0
    ensures o.qs.Some? ==> o.qs.value == qs
    // a missing or empty uri falls back to the subscription endpoint
    ensures uri.Some? && uri.value != "" ==> o.uri == uri.value
    ensures uri.None? || uri.value == "" ==> o.uri == ManagementBase + resource
    // the caller's headers are laid over the JSON content type
    ensures forall k :: k in o.headers <==> k == "Content-Type" || k in headers
    ensures forall k :: k in headers ==> o.headers[k] == headers[k]
    ensures "Content-Type" !in headers ==> o.headers["Content-Type"] == JsonContentType
  {
    var target := if uri.Some? && uri.value != "" then uri.value else ManagementBase + resource;
    o := ApiOptions(map["Content-Type" := JsonContentType], httpMethod, Some(body), Some(qs), target, true);
    if |body.Keys| == 0 {
      o := o.(body := None);
    }
    if |qs.Keys| == 0 {
      o := o.(qs := None);
    }
    if |headers.Keys| != 0 {
      o := o.(headers := map[] + o.headers + headers);
    }
  }

  // ---------------------------------------------------------------------
  // Shared by both loops

  /** The arguments of one `microsoftApiRequest` call a loop makes. */
  datatype Call = Call(uri: Option<string>, qs: Props, body: Props)

  /** What a loop returns, together with the calls it made in order. */
  datatype Paged = Paged(items: Result<seq<Json>>, calls: seq<Call>)

  /** `query.limit` read as a number; an absent or non-numeric limit reads as 0 (falsy). */
  function LimitOf(query: Props): int
  {
    if "limit" in query && query["limit"].JNum? then query["limit"].n else 0
  }

  /** `limit && limit <= count`. */
  predicate LimitReached(limit: int, count: nat)
  {
    limit != 0 && limit <= count
  }

  /** What `returnData.push.apply(returnData, page[propertyName])` adds. `apply`
      adds nothing for `undefined`/`null` and throws for a primitive; an object
      without `length` adds nothing. When `logsLength` holds, the page's list
      is first read for its `length`, which throws for `undefined`/`null`.
      Reading any property of a `null` page throws. */
  function Pushed(page: Json, propertyName: string, logsLength: bool): (r: Result<seq<Json>>)
    ensures page.JNull? ==> r.Failure?
    ensures r.Ok? && Field(page, propertyName).Some? && Field(page, propertyName).value.JArr? ==>
      r.value == Field(page, propertyName).value.elems
  {
    if page.JNull? then Failure(Thrown)
    else
      var v := Field(page, propertyName);
      if v.None? || v.value.JNull? then (if logsLength then Failure(Thrown) else Ok([]))
      else if v.value.JArr? then Ok(v.value.elems)
      else if v.value.JObj? then Ok([])
      else Failure(Thrown)
  }

  /** The in-order concatenation of what the first `n` answers contribute. */
  function Gathered(pages: seq<Option<Json>>, n: nat, propertyName: string, logsLength: bool): (r: Result<seq<Json>>)
    requires n <= |pages|
    ensures n == 0 ==> r == Ok([])
  {
    if n == 0 then Ok([])
    else
      var before := Gathered(pages, n - 1, propertyName, logsLength);
      if before.Failure? || pages[n - 1].None? then Failure(Thrown)
      else
        var page := Pushed(pages[n - 1].value, propertyName, logsLength);
        if page.Failure? then Failure(Thrown) else Ok(before.value + page.value)
  }

  /** One more answer extends the concatenation by its own list. */
  lemma GatheredNext(pages: seq<Option<Json>>, n: nat, propertyName: string, logsLength: bool, collected: seq<Json>)
    requires n < |pages|
    requires Gathered(pages, n, propertyName, logsLength) == Ok(collected)
    requires pages[n].Some? && Pushed(pages[n].value, propertyName, logsLength).Ok?
    ensures Gathered(pages, n + 1, propertyName, logsLength)
         == Ok(collected + Pushed(pages[n].value, propertyName, logsLength).value)
  {
  }

  // ---------------------------------------------------------------------
  // microsoftApiRequestAllItems: follow nextLink, honour `limit`

  /** `returnData.slice(0, end)`: a negative end counts from the back. */
  function JsSlice(xs: seq<Json>, end: int): (r: seq<Json>)
    ensures r <= xs
    ensures end >= 0 ==> |r| == if end < |xs| then end else |xs|
    ensures end < 0 ==> |r| == if |xs| + end > 0 then |xs| + end else 0
  {
    var stop := if end >= 0 then (if end < |xs| then end else |xs|)
                else (if |xs| + end > 0 then |xs| + end else 0);
    xs[..stop]
  }

  /** What the loop returns once the collection stops: truncated to the
      limit when the limit was reached, otherwise everything. */
  function Truncated(all: seq<Json>, limit: int): (r: seq<Json>)
    ensures r <= all
    ensures limit > 0 ==> |r| <= limit
    ensures limit == 0 ==> r == all
    ensures limit > 0 && limit <= |all| ==> |r| == limit
  {
    if LimitReached(limit, |all|) then JsSlice(all, limit) else all
  }

  /** The `$top` of the first request: the limit when it is truthy and at most 1000. */
  function FirstTop(limit: int): (t: int)
    ensures t != 0
    ensures limit != 0 && limit <= 1000 ==> t == limit
    ensures !(limit != 0 && limit <= 1000) ==> t == 1000
  {
    if limit != 0 && limit <= 1000 then limit else 1000
  }

  /** The query of the first request: `limit` deleted, `$top` set. */
  function FirstQuery(query: Props): (q: Props)
    ensures "limit" !in q
    ensures "$top" in q && q["$top"] == JNum(FirstTop(LimitOf(query)))
    ensures forall k :: k in query && k != "limit" && k != "$top" ==> k in q && q[k] == query[k]
    ensures forall k :: k in q ==> k == "$top" || k in query
  {
    (query - {"limit"})["$top" := JNum(FirstTop(LimitOf(query)))]
  }

  /** The digits of `s` from position `i` on end at `j`. */
  function DigitsEnd(s: string, i: nat): (j: nat)
    requires i <= |s|
    ensures i <= j <= |s|
    ensures forall k :: i <= k < j ==> IsDigit(s[k])
    ensures j < |s| ==> !IsDigit(s[j])
    decreases |s| - i
  {
    if i < |s| && IsDigit(s[i]) then DigitsEnd(s, i + 1) else i
  }

  const TopParam := "&$top="

  /** `/(&\$top=)(\d+)/` matches at position `i`. */
  predicate TopAt(s: string, i: nat)
  {
    i + 7 <= |s| && s[i..i + 6] == TopParam && IsDigit(s[i + 6])
  }

  /** The first match at or after `i` removed. */
  function StripTopFrom(s: string, i: nat): string
    requires i <= |s|
    decreases |s| - i
  {
    if i + 7 > |s| then s
    else if TopAt(s, i) then s[..i] + s[DigitsEnd(s, i + 6)..]
    else StripTopFrom(s, i + 1)
  }

  /** `uri.replace(/(&\$top=)(\d+)/, '')`: only the first match goes. */
  function StripTop(s: string): string
  {
    StripTopFrom(s, 0)
  }

  lemma {:induction false} StripTopFromNone(s: string, i: nat)
    requires i <= |s|
    requires forall k :: i <= k <= |s| ==> !TopAt(s, k)
    ensures StripTopFrom(s, i) == s
    decreases |s| - i
  {
    if i + 7 <= |s| {
      StripTopFromNone(s, i + 1);
    }
  }

  lemma {:induction false} StripTopFromFirst(s: string, i: nat, p: nat)
    requires i <= p <= |s|
    requires TopAt(s, p)
    requires forall k :: i <= k < p ==> !TopAt(s, k)
    ensures StripTopFrom(s, i) == s[..p] + s[DigitsEnd(s, p + 6)..]
    decreases p - i
  {
    if i < p {
      StripTopFromFirst(s, i + 1, p);
    }
  }

  /** A uri without any `&$top=<digits>` is left alone. */
  lemma StripTopUnchanged(s: string)
    requires forall k :: 0 <= k <= |s| ==> !TopAt(s, k)
    ensures StripTop(s) == s
  {
    StripTopFromNone(s, 0);
  }

  /** The leftmost `&$top=` with its whole run of digits is cut out, and
      nothing else. */
  lemma StripTopFirst(s: string, p: nat)
    requires p <= |s| && TopAt(s, p)
    requires forall k :: 0 <= k < p ==> !TopAt(s, k)
    ensures var e := DigitsEnd(s, p + 6);
      && p + 7 <= e <= |s|
      && s[p..p + 6] == TopParam
      && (forall k :: p + 6 <= k < e ==> IsDigit(s[k]))
      && (e < |s| ==> !IsDigit(s[e]))
      && StripTop(s) == s[..p] + s[e..]
  {
    StripTopFromFirst(s, 0, p);
  }

  /** Laid out by its parts: the first `&$top=` and its digits are cut out
      when nothing before them is an `&`. */
  lemma StripTopParameter(before: string, digits: string, rest: string)
    requires '&' !in before
    requires |digits| >= 1 && forall k :: 0 <= k < |digits| ==> IsDigit(digits[k])
    requires rest == [] || !IsDigit(rest[0])
    ensures StripTop(before + TopParam + digits + rest) == before + rest
  {
    var s := before + TopParam + digits + rest;
    var p := |before|;
    forall k | 0 <= k < p
      ensures !TopAt(s, k)
    {
      assert s[k] == before[k];
    }
    assert s[p..p + 6] == TopParam;
    assert s[p + 6] == digits[0];
    DigitsRun(s, p + 6, |digits|);
    StripTopFirst(s, p);
    assert s[..p] == before;
    assert s[p + 6 + |digits|..] == rest;
  }

  lemma {:induction false} DigitsRun(s: string, i: nat, n: nat)
    requires i + n <= |s|
    requires forall k :: i <= k < i + n ==> IsDigit(s[k])
    requires i + n == |s| || !IsDigit(s[i + n])
    ensures DigitsEnd(s, i) == i + n
    decreases n
  {
    if n > 0 {
      DigitsRun(s, i + 1, n - 1);
    }
  }

  /** Only the `$top` parameter leaves the link; its neighbours stay joined by `&`. */
  lemma StripTopExample()
    ensures StripTop("?a=1&$top=50&b=2") == "?a=1&b=2"
  {
    assert "?a=1&$top=50&b=2" == "?a=1" + TopParam + "50" + "&b=2";
    StripTopParameter("?a=1", "50", "&b=2");
  }

  function StripTopOpt(uri: Option<string>): (r: Option<string>)
    ensures r.Some? <==> uri.Some?
    ensures uri.Some? ==> r.value == StripTop(uri.value)
  {
    if uri.Some? then Some(StripTop(uri.value)) else None
  }

  /** The uri of the next request, from the answer's `nextLink`: a string is
      used as is and `null` behaves as no uri; any other value cannot serve
      as a uri. */
  function NextUri(link: Json): Result<Option<string>>
  {
    if link.JStr? then Ok(Some(link.s))
    else if link.JNull? then Ok(None)
    else Failure(Thrown)
  }

  /** A request after the first: no body and no query, except that when fewer
      than 1000 items are missing `$top` asks for exactly the rest and the
      first `&$top=N` is cut out of the uri. */
  function LaterCall(limit: int, collected: nat, uri: Option<string>): (c: Call)
    requires !LimitReached(limit, collected)
    ensures c.body == map[]
    ensures "$top" in c.qs <==> limit != 0 && collected + 1000 > limit
    ensures "$top" in c.qs ==>
      c.qs == map["$top" := JNum(limit - collected)] && 0 < limit - collected < 1000
      && c.uri == StripTopOpt(uri)
    ensures "$top" !in c.qs ==> c.qs == map[] && c.uri == uri
  {
    if limit != 0 && collected + 1000 > limit then
      Call(StripTopOpt(uri), map["$top" := JNum(limit - collected)], map[])
    else Call(uri, map[], map[])
  }

  /** The loop from the `i`-th request on; `call` is the request about to be sent. */
  function AllItemsFrom(pages: seq<Option<Json>>, i: nat, propertyName: string, limit: int,
                        collected: seq<Json>, call: Call, calls: seq<Call>): Paged
    decreases |pages| - i
  {
    var sent := calls + [call];
    if i >= |pages| then Paged(Failure(Unanswered), sent)
    else if pages[i].None? then Paged(Failure(Rejected), sent)
    else
      var page := pages[i].value;
      var pushed := Pushed(page, propertyName, false);
      if pushed.Failure? then Paged(Failure(Thrown), sent)
      else
        var all := collected + pushed.value;
        var link := Field(page, "nextLink");
        if LimitReached(limit, |all|) then Paged(Ok(JsSlice(all, limit)), sent)
        else if link.None? then Paged(Ok(all), sent)
        else
          var uri := NextUri(link.value);
          if uri.Failure? then Paged(Failure(Thrown), sent)
          else AllItemsFrom(pages, i + 1, propertyName, limit, all, LaterCall(limit, |all|, uri.value), sent)
  }

  function AllItems(pages: seq<Option<Json>>, propertyName: string, body: Props, query: Props): Paged
  {
    AllItemsFrom(pages, 0, propertyName, LimitOf(query), [], Call(None, FirstQuery(query), body), [])
  }

  method RequestAllItems(pages: seq<Option<Json>>, propertyName: string, body: Props, query: Props)
    returns (items: Result<seq<Json>>, calls: seq<Call>)
    ensures Paged(items, calls) == AllItems(pages, propertyName, body, query)
  {
    var returnData: seq<Json> := [];
    var uri: Option<string> := None;
    var limit := LimitOf(query);
    var q := query - {"limit"};
    q := q["$top" := JNum(if limit != 0 && limit <= 1000 then limit else 1000)];
    var b := body;
    calls := [];
    var i := 0;
    while true
      invariant i <= |pages| && |calls| == i
      invariant i == 0 ==> q == FirstQuery(query) && b == body && uri.None? && returnData == []
      invariant i > 0 ==> q == map[] && b == map[] && !LimitReached(limit, |returnData|)
      invariant AllItemsFrom(pages, i, propertyName, limit, returnData,
                  if i == 0 then Call(None, FirstQuery(query), body) else LaterCall(limit, |returnData|, uri),
                  calls)
             == AllItems(pages, propertyName, body, query)
      decreases |pages| - i
    {
      if limit != 0 && !TruthyAt(q, "$top") && |returnData| + 1000 > limit {
        q := q["$top" := JNum(limit - |returnData|)];
        uri := StripTopOpt(uri);
      }
      calls := calls + [Call(uri, q, b)];
      if i >= |pages| {
        items := Failure(Unanswered);
        return;
      }
      if pages[i].None? {
        items := Failure(Rejected);
        return;
      }
      var page := pages[i].value;
      var pushed := Pushed(page, propertyName, false);
      if pushed.Failure? {
        items := Failure(Thrown);
        return;
      }
      var link := Field(page, "nextLink");
      q := map[];
      b := map[];
      returnData := returnData + pushed.value;
      if limit != 0 && limit <= |returnData| {
        items := Ok(JsSlice(returnData, limit));
        return;
      }
      if link.None? {
        items := Ok(returnData);
        return;
      }
      var next := NextUri(link.value);
      if next.Failure? {
        items := Failure(Thrown);
        return;
      }
      uri := next.value;
      i := i + 1;
    }
  }

  /** The link a page points on to, as the next request receives it. */
  function LinkOf(page: Option<Json>): Option<string>
  {
    if page.Some? && Field(page.value, "nextLink").Some? && Field(page.value, "nextLink").value.JStr?
    then Some(Field(page.value, "nextLink").value.s)
    else None
  }

  /** The `k`-th request (k >= 1) follows the link of answer `k - 1`, sized by
      what the first `k` answers gathered, which left the limit unreached. */
  predicate FollowsLink(pages: seq<Option<Json>>, k: nat, propertyName: string, limit: int, c: Call)
  {
    && 1 <= k <= |pages|
    && Gathered(pages, k, propertyName, false).Ok?
    && !LimitReached(limit, |Gathered(pages, k, propertyName, false).value|)
    && c == LaterCall(limit, |Gathered(pages, k, propertyName, false).value|, LinkOf(pages[k - 1]))
  }

  /** Answer `k` had a `nextLink`, and the first `k + 1` answers left the limit unreached. */
  predicate Continued(pages: seq<Option<Json>>, k: nat, propertyName: string, limit: int)
  {
    && k < |pages|
    && pages[k].Some?
    && Field(pages[k].value, "nextLink").Some?
    && Gathered(pages, k + 1, propertyName, false).Ok?
    && !LimitReached(limit, |Gathered(pages, k + 1, propertyName, false).value|)
  }

  /** The collection stopped at answer `n - 1`, which reached the limit or had
      no `nextLink`, and `items` is everything gathered up to it, truncated. */
  predicate Finished(pages: seq<Option<Json>>, n: nat, propertyName: string, limit: int, items: seq<Json>)
  {
    && 0 < n <= |pages|
    && pages[n - 1].Some?
    && Gathered(pages, n, propertyName, false).Ok?
    && items == Truncated(Gathered(pages, n, propertyName, false).value, limit)
    && (LimitReached(limit, |Gathered(pages, n, propertyName, false).value|)
        || Field(pages[n - 1].value, "nextLink").None?)
  }

  lemma {:induction false} AllItemsFromCalls(pages: seq<Option<Json>>, i: nat, propertyName: string, limit: int,
                                             collected: seq<Json>, call: Call, calls: seq<Call>)
    requires i <= |pages| && |calls| == i
    requires Gathered(pages, i, propertyName, false) == Ok(collected)
    ensures var p := AllItemsFrom(pages, i, propertyName, limit, collected, call, calls);
      && |p.calls| > i && p.calls[..i + 1] == calls + [call]
      && (forall k :: i < k < |p.calls| ==> FollowsLink(pages, k, propertyName, limit, p.calls[k]))
    decreases |pages| - i
  {
    var sent := calls + [call];
    var p := AllItemsFrom(pages, i, propertyName, limit, collected, call, calls);
    if i < |pages| && pages[i].Some? && Pushed(pages[i].value, propertyName, false).Ok? {
      var page := pages[i].value;
      var all := collected + Pushed(page, propertyName, false).value;
      var link := Field(page, "nextLink");
      if !LimitReached(limit, |all|) && link.Some? && NextUri(link.value).Ok? {
        GatheredNext(pages, i, propertyName, false, collected);
        assert NextUri(link.value).value == LinkOf(pages[i]);
        var next := LaterCall(limit, |all|, LinkOf(pages[i]));
        assert p == AllItemsFrom(pages, i + 1, propertyName, limit, all, next, sent);
        AllItemsFromCalls(pages, i + 1, propertyName, limit, all, next, sent);
        assert p.calls[..i + 1] == (p.calls[..i + 2])[..i + 1];
        assert p.calls[i + 1] == (p.calls[..i + 2])[i + 1];
        assert FollowsLink(pages, i + 1, propertyName, limit, next);
      } else {
        assert p.calls == sent;
      }
    } else {
      assert p.calls == sent;
    }
  }

  /** The first request carries the caller's body and the query with `limit`
      removed and `$top` set; each later one follows the previous answer's
      link with no body and at most a `$top` for exactly the number of items
      still missing, below 1000, in which case the first `&$top=N` of the
      link is cut out (see `LaterCall`). */
  lemma AllItemsCalls(pages: seq<Option<Json>>, propertyName: string, body: Props, query: Props)
    ensures var p := AllItems(pages, propertyName, body, query);
      && |p.calls| >= 1
      && p.calls[0] == Call(None, FirstQuery(query), body)
      && (forall k :: 1 <= k < |p.calls| ==> FollowsLink(pages, k, propertyName, LimitOf(query), p.calls[k]))
  {
    var call := Call(None, FirstQuery(query), body);
    AllItemsFromCalls(pages, 0, propertyName, LimitOf(query), [], call, []);
    var p := AllItemsFrom(pages, 0, propertyName, LimitOf(query), [], call, []);
    assert p == AllItems(pages, propertyName, body, query);
    assert p.calls[0] == (p.calls[..1])[0];
  }

  lemma {:induction false} AllItemsFromResult(pages: seq<Option<Json>>, i: nat, propertyName: string, limit: int,
                                              collected: seq<Json>, call: Call, calls: seq<Call>)
    requires i <= |pages| && |calls| == i
    requires Gathered(pages, i, propertyName, false) == Ok(collected)
    ensures var p := AllItemsFrom(pages, i, propertyName, limit, collected, call, calls);
      p.items.Ok? ==>
        && |p.calls| > i
        && Finished(pages, |p.calls|, propertyName, limit, p.items.value)
        && (forall k :: i <= k < |p.calls| - 1 ==> Continued(pages, k, propertyName, limit))
    decreases |pages| - i
  {
    var sent := calls + [call];
    var p := AllItemsFrom(pages, i, propertyName, limit, collected, call, calls);
    if i < |pages| && pages[i].Some? && Pushed(pages[i].value, propertyName, false).Ok? {
      var page := pages[i].value;
      var all := collected + Pushed(page, propertyName, false).value;
      GatheredNext(pages, i, propertyName, false, collected);
      var link := Field(page, "nextLink");
      if !LimitReached(limit, |all|) && link.Some? && NextUri(link.value).Ok? {
        var next := LaterCall(limit, |all|, NextUri(link.value).value);
        assert p == AllItemsFrom(pages, i + 1, propertyName, limit, all, next, sent);
        AllItemsFromResult(pages, i + 1, propertyName, limit, all, next, sent);
        assert Continued(pages, i, propertyName, limit);
      } else if p.items.Ok? {
        assert p.calls == sent;
        assert Finished(pages, i + 1, propertyName, limit, p.items.value);
      }
    }
  }

  /** A successful collection is the in-order concatenation of every answer's
      list, truncated to `limit` when that many were collected; it ends at the
      first answer that reaches the limit or has no `nextLink`, and every
      earlier answer had a `nextLink` and left the limit unreached. */
  lemma AllItemsResult(pages: seq<Option<Json>>, propertyName: string, body: Props, query: Props)
    ensures var p := AllItems(pages, propertyName, body, query);
      p.items.Ok? ==>
        && Finished(pages, |p.calls|, propertyName, LimitOf(query), p.items.value)
        && (forall k :: 0 <= k < |p.calls| - 1 ==> Continued(pages, k, propertyName, LimitOf(query)))
  {
    var call := Call(None, FirstQuery(query), body);
    AllItemsFromResult(pages, 0, propertyName, LimitOf(query), [], call, []);
    var p := AllItemsFrom(pages, 0, propertyName, LimitOf(query), [], call, []);
    assert p == AllItems(pages, propertyName, body, query);
  }

  /** With a positive limit no more than `limit` items come back, and without
      one nothing is dropped. */
  lemma AllItemsBounded(pages: seq<Option<Json>>, propertyName: string, body: Props, query: Props)
    ensures var p := AllItems(pages, propertyName, body, query);
      && (p.items.Ok? && LimitOf(query) > 0 ==> |p.items.value| <= LimitOf(query))
      && (p.items.Ok? && LimitOf(query) == 0 ==>
            |p.calls| <= |pages| && Gathered(pages, |p.calls|, propertyName, false) == Ok(p.items.value))
  {
    AllItemsResult(pages, propertyName, body, query);
  }

  // ---------------------------------------------------------------------
  // microsoftApiRequestAllItemsSkip: `$skip` paging until an empty `value`

  /** `query.$top || 1000`, for a numeric `$top`. */
  function SkipTop(query: Props): (t: int)
    ensures t != 0
    ensures "$top" in query && query["$top"].JNum? && query["$top"].n != 0 ==> t == query["$top"].n
  {
    if "$top" in query && query["$top"].JNum? && query["$top"].n != 0 then query["$top"].n else 1000
  }

  /** The query of the `k`-th request: `$top` fixed, `$skip` at `k` pages. */
  function SkipQuery(query: Props, top: int, k: nat): (q: Props)
    ensures "$top" in q && q["$top"] == JNum(top)
    ensures "$skip" in q && q["$skip"] == JNum(k * top)
    ensures forall key :: key in query && key != "$top" && key != "$skip" ==> key in q && q[key] == query[key]
    ensures forall key :: key in q ==> key == "$top" || key == "$skip" || key in query
  {
    query["$top" := JNum(top)]["$skip" := JNum(k * top)]
  }

  /** `page.value.length !== 0`, read as "stop here": an array or string
      stops when empty, an object when its own `length` is the number 0; a
      number or a boolean has no length and never stops; a missing or `null`
      `value` throws. */
  function ValueEmpty(page: Json): (r: Result<bool>)
    ensures r.Failure? <==> Field(page, "value").None? || Field(page, "value").value.JNull?
    ensures Field(page, "value").Some? && Field(page, "value").value.JArr? ==>
      r == Ok(|Field(page, "value").value.elems| == 0)
    ensures Field(page, "value").Some? && Field(page, "value").value.JStr? ==>
      r == Ok(|Field(page, "value").value.s| == 0)
    ensures Field(page, "value").Some? && Field(page, "value").value.JObj? ==>
      r == Ok(Get(Field(page, "value").value.fields, "length") == Some(JNum(0)))
    ensures Field(page, "value").Some? && (Field(page, "value").value.JNum? || Field(page, "value").value.JBool?) ==>
      r == Ok(false)
  {
    var v := Field(page, "value");
    if v.None? || v.value.JNull? then Failure(Thrown)
    else
      match v.value
      case JArr(elems) => Ok(|elems| == 0)
      case JStr(s) => Ok(|s| == 0)
      case JObj(fields) => Ok(Get(fields, "length") == Some(JNum(0)))
      case _ => Ok(false)
  }

  function SkipFrom(pages: seq<Option<Json>>, i: nat, propertyName: string, top: int, limit: int,
                    query: Props, body: Props, collected: seq<Json>, calls: seq<Call>): Paged
    decreases |pages| - i
  {
    var sent := calls + [Call(None, SkipQuery(query, top, i), body)];
    if i >= |pages| then Paged(Failure(Unanswered), sent)
    else if pages[i].None? then Paged(Failure(Rejected), sent)
    else
      var page := pages[i].value;
      var pushed := Pushed(page, propertyName, true);
      if pushed.Failure? then Paged(Failure(Thrown), sent)
      else
        var all := collected + pushed.value;
        if LimitReached(limit, |all|) then Paged(Ok(all), sent)
        else
          var stop := ValueEmpty(page);
          if stop.Failure? then Paged(Failure(Thrown), sent)
          else if stop.value then Paged(Ok(all), sent)
          else SkipFrom(pages, i + 1, propertyName, top, limit, query, body, all, sent)
  }

  function AllItemsSkip(pages: seq<Option<Json>>, propertyName: string, body: Props, query: Props): Paged
  {
    SkipFrom(pages, 0, propertyName, SkipTop(query), LimitOf(query), query, body, [], [])
  }

  /** One step of the loop moves `$skip` on by `$top`. */
  lemma SkipQueryNext(query: Props, top: int, k: nat)
    ensures var q := SkipQuery(query, top, k);
            q["$skip" := JNum(q["$skip"].n + q["$top"].n)] == SkipQuery(query, top, k + 1)
  {
    assert k * top + top == (k + 1) * top;
  }

  /** The paging parameters leave `limit` alone. */
  lemma SkipQueryLimit(query: Props, top: int, k: nat)
    ensures LimitOf(SkipQuery(query, top, k)) == LimitOf(query)
  {
    assert "limit" in SkipQuery(query, top, k) <==> "limit" in query;
  }

  method RequestAllItemsSkip(pages: seq<Option<Json>>, propertyName: string, body: Props, query: Props)
    returns (items: Result<seq<Json>>, calls: seq<Call>)
    ensures Paged(items, calls) == AllItemsSkip(pages, propertyName, body, query)
  {
    var returnData: seq<Json> := [];
    var top := SkipTop(query);
    var q := query["$top" := JNum(top)];
    q := q["$skip" := JNum(0)];
    calls := [];
    var i := 0;
    while true
      invariant i <= |pages| && |calls| == i
      invariant q == SkipQuery(query, top, i)
      invariant SkipFrom(pages, i, propertyName, top, LimitOf(query), query, body, returnData, calls)
             == AllItemsSkip(pages, propertyName, body, query)
      decreases |pages| - i
    {
      calls := calls + [Call(None, q, body)];
      if i >= |pages| {
        items := Failure(Unanswered);
        return;
      }
      if pages[i].None? {
        items := Failure(Rejected);
        return;
      }
      var page := pages[i].value;
      var pushed := Pushed(page, propertyName, true);
      if pushed.Failure? {
        items := Failure(Thrown);
        return;
      }
      SkipQueryNext(query, top, i);
      q := q["$skip" := JNum(q["$skip"].n + q["$top"].n)];
      returnData := returnData + pushed.value;
      SkipQueryLimit(query, top, i + 1);
      var limit := LimitOf(q);
      if limit != 0 && limit <= |returnData| {
        items := Ok(returnData);
        return;
      }
      var stop := ValueEmpty(page);
      if stop.Failure? {
        items := Failure(Thrown);
        return;
      }
      if stop.value {
        items := Ok(returnData);
        return;
      }
      i := i + 1;
    }
  }

  lemma {:induction false} SkipFromCalls(pages: seq<Option<Json>>, i: nat, propertyName: string, top: int, limit: int,
                                         query: Props, body: Props, collected: seq<Json>, calls: seq<Call>)
    requires |calls| == i
    ensures var p := SkipFrom(pages, i, propertyName, top, limit, query, body, collected, calls);
      && |p.calls| > i && p.calls[..i] == calls
      && (forall k :: i <= k < |p.calls| ==> p.calls[k] == Call(None, SkipQuery(query, top, k), body))
    decreases |pages| - i
  {
    var sent := calls + [Call(None, SkipQuery(query, top, i), body)];
    var p := SkipFrom(pages, i, propertyName, top, limit, query, body, collected, calls);
    if i >= |pages| || pages[i].None? {
      assert p.calls == sent;
      return;
    }
    var pushed := Pushed(pages[i].value, propertyName, true);
    if pushed.Failure? {
      assert p.calls == sent;
      return;
    }
    var all := collected + pushed.value;
    var stop := ValueEmpty(pages[i].value);
    if LimitReached(limit, |all|) || stop.Failure? || stop.value {
      assert p.calls == sent;
      return;
    }
    assert p == SkipFrom(pages, i + 1, propertyName, top, limit, query, body, all, sent);
    SkipFromCalls(pages, i + 1, propertyName, top, limit, query, body, all, sent);
    assert p.calls[..i] == (p.calls[..i + 1])[..i];
    assert p.calls[i] == (p.calls[..i + 1])[i];
  }

  /** Every request carries the caller's body and query, with `$top` fixed
      (the caller's, or 1000) and `$skip` advanced by `$top` per page from 0. */
  lemma SkipCalls(pages: seq<Option<Json>>, propertyName: string, body: Props, query: Props)
    ensures var p := AllItemsSkip(pages, propertyName, body, query);
      && |p.calls| >= 1
      && (forall k :: 0 <= k < |p.calls| ==>
            p.calls[k] == Call(None, SkipQuery(query, SkipTop(query), k), body)
            && p.calls[k].qs["$skip"] == JNum(k * SkipTop(query)))
  {
    SkipFromCalls(pages, 0, propertyName, SkipTop(query), LimitOf(query), query, body, [], []);
    var p := SkipFrom(pages, 0, propertyName, SkipTop(query), LimitOf(query), query, body, [], []);
    assert p == AllItemsSkip(pages, propertyName, body, query);
  }

  /** Answer `k` had a non-empty `value`, and the first `k + 1` answers left the limit unreached. */
  predicate SkipContinued(pages: seq<Option<Json>>, k: nat, propertyName: string, limit: int)
  {
    && k < |pages|
    && pages[k].Some?
    && ValueEmpty(pages[k].value) == Ok(false)
    && Gathered(pages, k + 1, propertyName, true).Ok?
    && !LimitReached(limit, |Gathered(pages, k + 1, propertyName, true).value|)
  }

  /** The collection stopped at answer `n - 1`, whose `value` was empty or
      which reached the limit, and `items` is everything gathered up to it. */
  predicate SkipFinished(pages: seq<Option<Json>>, n: nat, propertyName: string, limit: int, items: seq<Json>)
  {
    && 0 < n <= |pages|
    && pages[n - 1].Some?
    && Gathered(pages, n, propertyName, true) == Ok(items)
    && (LimitReached(limit, |items|) || ValueEmpty(pages[n - 1].value) == Ok(true))
  }

  lemma {:induction false} SkipFromResult(pages: seq<Option<Json>>, i: nat, propertyName: string, top: int, limit: int,
                                          query: Props, body: Props, collected: seq<Json>, calls: seq<Call>)
    requires i <= |pages| && |calls| == i
    requires Gathered(pages, i, propertyName, true) == Ok(collected)
    ensures var p := SkipFrom(pages, i, propertyName, top, limit, query, body, collected, calls);
      p.items.Ok? ==>
        && |p.calls| > i
        && SkipFinished(pages, |p.calls|, propertyName, limit, p.items.value)
        && (forall k :: i <= k < |p.calls| - 1 ==> SkipContinued(pages, k, propertyName, limit))
    decreases |pages| - i
  {
    var sent := calls + [Call(None, SkipQuery(query, top, i), body)];
    var p := SkipFrom(pages, i, propertyName, top, limit, query, body, collected, calls);
    if i < |pages| && pages[i].Some? && Pushed(pages[i].value, propertyName, true).Ok? {
      var all := collected + Pushed(pages[i].value, propertyName, true).value;
      GatheredNext(pages, i, propertyName, true, collected);
      if !LimitReached(limit, |all|) && ValueEmpty(pages[i].value) == Ok(false) {
        assert p == SkipFrom(pages, i + 1, propertyName, top, limit, query, body, all, sent);
        SkipFromResult(pages, i + 1, propertyName, top, limit, query, body, all, sent);
        assert SkipContinued(pages, i, propertyName, limit);
      } else if p.items.Ok? {
        assert p.calls == sent;
        assert SkipFinished(pages, i + 1, propertyName, limit, p.items.value);
      }
    }
  }

  /** A successful `$skip` collection is the untruncated in-order
      concatenation of every answer's list; it ends at the first answer whose
      `value` is empty or that reaches `query.limit`. */
  lemma SkipResult(pages: seq<Option<Json>>, propertyName: string, body: Props, query: Props)
    ensures var p := AllItemsSkip(pages, propertyName, body, query);
      p.items.Ok? ==>
        && SkipFinished(pages, |p.calls|, propertyName, LimitOf(query), p.items.value)
        && (forall k :: 0 <= k < |p.calls| - 1 ==> SkipContinued(pages, k, propertyName, LimitOf(query)))
  {
    SkipFromResult(pages, 0, propertyName, SkipTop(query), LimitOf(query), query, body, [], []);
    var p := SkipFrom(pages, 0, propertyName, SkipTop(query), LimitOf(query), query, body, [], []);
    assert p == AllItemsSkip(pages, propertyName, body, query);
  }
}

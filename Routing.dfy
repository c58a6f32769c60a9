/** The routing callbacks of the incident resource: the `_status` mappers
    of upsert and delete, and the getAll pagination (when to go on, and the
    next-page URL made from `nextLink`). */
module IncidentRouting {
  import opened JsonValues
  import opened Text
  import opened ResponseShaping

  // ---------------------------------------------------------------------------
  // _status mappers

  /** The status an upsert reports. */
  function UpsertStatus(statusCode: int): (r: string)
    ensures r == "Created" <==> statusCode == 201
    ensures r == "Created" || r == "Updated"
  {
    if statusCode == 201 then "Created" else "Updated"
  }

  /** The status a delete reports. */
  function DeleteStatus(statusCode: int): (r: string)
    ensures r == "Deleted" <==> statusCode == 200
    ensures r == "Deleted" || r == "Not Found"
  {
    if statusCode == 200 then "Deleted" else "Not Found"
  }

  /** The upsert callback: every item gets `_status`, nothing else changes. */
  method MarkUpserted(items: array<Item>, statusCode: int)
    modifies items
    ensures forall i :: 0 <= i < items.Length ==>
              items[i] == old(items[i]).(json := old(items[i]).json["_status" := JStr(UpsertStatus(statusCode))])
  {
    var i := 0;
    while i < items.Length
      invariant 0 <= i <= items.Length
      invariant forall k :: 0 <= k < i ==>
                  items[k] == old(items[k]).(json := old(items[k]).json["_status" := JStr(UpsertStatus(statusCode))])
      invariant forall k :: i <= k < items.Length ==> items[k] == old(items[k])
    {
      items[i] := items[i].(json := items[i].json["_status" := JStr(if statusCode == 201 then "Created" else "Updated")]);
      i := i + 1;
    }
  }

  /** The delete callback: every item's JSON is replaced by `{_status}`. */
  method MarkDeleted(items: array<Item>, statusCode: int)
    modifies items
    ensures forall i :: 0 <= i < items.Length ==>
              items[i] == old(items[i]).(json := map["_status" := JStr(DeleteStatus(statusCode))])
  {
    var i := 0;
    while i < items.Length
      invariant 0 <= i <= items.Length
      invariant forall k :: 0 <= k < i ==> items[k] == old(items[k]).(json := map["_status" := JStr(DeleteStatus(statusCode))])
      invariant forall k :: i <= k < items.Length ==> items[k] == old(items[k])
    {
      items[i] := items[i].(json := map["_status" := JStr(if statusCode == 200 then "Deleted" else "Not Found")]);
      i := i + 1;
    }
  }

  // ---------------------------------------------------------------------------
  // Pagination

  /** `returnAll && body?.nextLink !== undefined`. */
  function ContinuePaging(returnAll: bool, body: Json): bool
  {
    returnAll && Field(body, "nextLink").Some?
  }

  /** Paging goes on exactly when all results are asked for and the body is
      an object that has a `nextLink` key, `null` included. */
  lemma ContinuePagingIff(returnAll: bool, body: Json)
    ensures ContinuePaging(returnAll, body) <==> returnAll && body.JObj? && "nextLink" in body.fields
    ensures body.JObj? && "nextLink" in body.fields && body.fields["nextLink"] == JNull ==>
              ContinuePaging(returnAll, body) == returnAll
  {
  }

  /** The line terminators `.` does not match. */
  predicate LineTerminator(c: char)
  {
    c == '\n' || c == '\r' || c == '\U{2028}' || c == '\U{2029}'
  }

  /** `.*?(&|$)` from index `j`: the end of the shortest run of characters
      other than line terminators that reaches an `&` (taken) or the end. */
  function RunEnd(s: string, j: nat): (r: Option<nat>)
    requires j <= |s|
    ensures r.Some? ==> j <= r.value <= |s|
    decreases |s| - j
  {
    if j == |s| then Some(|s|)
    else if s[j] == '&' then Some(j + 1)
    else if LineTerminator(s[j]) then None
    else RunEnd(s, j + 1)
  }

  /** `(api-version|\$top)=.*?(&|$)` at index `q`. */
  function ParamEnd(s: string, q: nat): (r: Option<nat>)
    requires q <= |s|
    ensures r.Some? ==> q < r.value <= |s|
  {
    if StartsWith(s[q..], "api-version=") then RunEnd(s, q + 12)
    else if StartsWith(s[q..], "$top=") then RunEnd(s, q + 5)
    else None
  }

  /** The end of the match starting at `p`, if one starts there: the optional
      `&` is taken when present, and without it the parameter name cannot
      start at an `&`. */
  function MatchEnd(s: string, p: nat): (r: Option<nat>)
    requires p < |s|
    ensures r.Some? ==> p < r.value <= |s|
  {
    if s[p] == '&' then ParamEnd(s, p + 1) else ParamEnd(s, p)
  }

  /** The global replace from index `p`: each match is dropped and the scan
      resumes after it; elsewhere one character is kept and the scan moves on. */
  function StripFrom(s: string, p: nat): string
    requires p <= |s|
    decreases |s| - p
  {
    if p == |s| then ""
    else
      var m := MatchEnd(s, p);
      if m.Some? then StripFrom(s, m.value) else [s[p]] + StripFrom(s, p + 1)
  }

  /** `nextLink.replace(/&?(api-version|\$top)=.*?(&|$)/g, "")` */
  function StripPaging(s: string): string
  {
    StripFrom(s, 0)
  }

  /** No match starts anywhere in `s`. */
  predicate NoMatch(s: string, from: nat, to: nat)
    requires from <= to <= |s|
  {
    forall p :: from <= p < to ==> MatchEnd(s, p).None?
  }

  /** The rewrite never makes the URL longer. */
  lemma {:induction false} StripFromShorter(s: string, p: nat)
    requires p <= |s|
    ensures |StripFrom(s, p)| <= |s| - p
    decreases |s| - p
  {
    if p < |s| {
      var m := MatchEnd(s, p);
      if m.Some? {
        StripFromShorter(s, m.value);
      } else {
        StripFromShorter(s, p + 1);
      }
    }
  }

  /** A stretch where no match starts is kept as it is. */
  lemma {:induction false} StripFromKeeps(s: string, p: nat, q: nat)
    requires p <= q <= |s| && NoMatch(s, p, q)
    ensures StripFrom(s, p) == s[p..q] + StripFrom(s, q)
    decreases q - p
  {
    if p < q {
      assert MatchEnd(s, p).None?;
      assert NoMatch(s, p + 1, q);
      StripFromKeeps(s, p + 1, q);
      assert StripFrom(s, p) == [s[p]] + StripFrom(s, p + 1);
      assert s[p..q] == [s[p]] + s[p + 1..q];
      Associative([s[p]], s[p + 1..q], StripFrom(s, q));
    }
  }

  /** A URL with no `api-version=` or `$top=` parameter is left unchanged. */
  lemma StripPagingUnchanged(s: string)
    requires NoMatch(s, 0, |s|)
    ensures StripPaging(s) == s
  {
    StripFromKeeps(s, 0, |s|);
  }

  /** A match that runs to the end drops the whole tail: everything after
      the last unmatched stretch is removed. */
  lemma StripPagingTail(s: string, p: nat)
    requires p < |s| && NoMatch(s, 0, p) && MatchEnd(s, p) == Some(|s|)
    ensures StripPaging(s) == s[..p]
  {
    StripFromKeeps(s, 0, p);
  }

  /** A run with no `&` and no line terminator reaches the end. */
  lemma {:induction false} RunEndToEnd(s: string, j: nat)
    requires j <= |s|
    requires forall i :: j <= i < |s| ==> s[i] != '&' && !LineTerminator(s[i])
    ensures RunEnd(s, j) == Some(|s|)
    decreases |s| - j
  {
    if j < |s| {
      RunEndToEnd(s, j + 1);
    }
  }

  /** A run with no `&` and no line terminator before an `&` ends just after it. */
  lemma {:induction false} RunEndToAmp(s: string, j: nat, k: nat)
    requires j <= k < |s| && s[k] == '&'
    requires forall i :: j <= i < k ==> s[i] != '&' && !LineTerminator(s[i])
    ensures RunEnd(s, j) == Some(k + 1)
    decreases k - j
  {
    if j < k {
      RunEndToAmp(s, j + 1, k);
    }
  }

  /** The characters of a value placed at `j` carry its properties. */
  lemma ValueStretch(s: string, j: nat, v: string)
    requires j + |v| <= |s| && s[j..j + |v|] == v
    requires forall i :: 0 <= i < |v| ==> v[i] != '&' && !LineTerminator(v[i])
    ensures forall i :: j <= i < j + |v| ==> s[i] != '&' && !LineTerminator(s[i])
  {
    forall i | j <= i < j + |v|
      ensures s[i] != '&' && !LineTerminator(s[i])
    {
      assert s[i] == s[j..j + |v|][i - j];
    }
  }

  /** The parameter name at `q` decides where its match ends. */
  lemma ParamAt(s: string, q: nat, name: string)
    requires name == "api-version=" || name == "$top="
    requires q + |name| <= |s| && s[q..q + |name|] == name
    ensures ParamEnd(s, q) == RunEnd(s, q + |name|)
    ensures ParamStop(s, q) == RunStop(s, q + |name|)
  {
    assert s[q..][..|name|] == name;
    if name == "$top=" {
      assert s[q] == '$';
      assert !StartsWith(s[q..], "api-version=");
    }
  }

  /** No parameter name starts at `q` unless `s[q]` is `a` or `$`. */
  lemma NoParamAt(s: string, q: nat)
    requires q <= |s|
    requires q < |s| ==> s[q] != 'a' && s[q] != '$'
    ensures ParamEnd(s, q).None? && ParamStop(s, q).None?
  {
    if q < |s| {
      assert !StartsWith(s[q..], "api-version=") by {
        if 12 <= |s[q..]| {
          assert s[q..][..12][0] != "api-version="[0];
        }
      }
      assert !StartsWith(s[q..], "$top=") by {
        if 5 <= |s[q..]| {
          assert s[q..][..5][0] != "$top="[0];
        }
      }
    }
  }

  /** Where the pieces of `base & name v & rest` sit. */
  lemma MiddleLayout(base: string, name: string, v: string, rest: string)
    ensures var s := base + "&" + name + v + "&" + rest;
            var p := |base|;
            var e := p + 1 + |name| + |v|;
            |s| == e + 1 + |rest| && s[p] == '&' && s[e] == '&'
            && s[..p] == base && s[p + 1..p + 1 + |name|] == name
            && s[p + 1 + |name|..e] == v && s[e + 1..] == rest && s[e..] == "&" + rest
  {
    var s := base + "&" + name + v + "&" + rest;
    var head := base + "&" + name + v;
    assert s == head + ("&" + rest);
    assert s[..|head|] == head;
    assert head[..|base|] == base;
    assert head[|base| + 1..|base| + 1 + |name|] == name;
    assert head[|base| + 1 + |name|..] == v;
  }

  /** Where the pieces of `base & name v` sit. */
  lemma TrailingLayout(base: string, name: string, v: string)
    ensures var s := base + "&" + name + v;
            var p := |base|;
            |s| == p + 1 + |name| + |v| && s[p] == '&'
            && s[..p] == base && s[p + 1..p + 1 + |name|] == name && s[p + 1 + |name|..] == v
  {
  }

  /** The rewrite of a URL with one match in it, at `p` up to `m`. */
  lemma StripAround(s: string, p: nat, m: nat)
    requires p < m <= |s| && NoMatch(s, 0, p) && MatchEnd(s, p) == Some(m) && NoMatch(s, m, |s|)
    ensures StripPaging(s) == s[..p] + s[m..]
  {
    var tail := StripFrom(s, m);
    StripFromKeeps(s, m, |s|);
    assert tail == s[m..|s|] + "";
    assert tail == s[m..];
    assert StripFrom(s, p) == tail;
    StripFromKeeps(s, 0, p);
    assert s[0..p] == s[..p];
  }

  /** A match of `&name` followed by a value takes the `&` at `e` as well. */
  lemma MatchAt(s: string, p: nat, name: string, e: nat)
    requires name == "api-version=" || name == "$top="
    requires p + 1 + |name| <= e < |s| && s[p] == '&' && s[e] == '&'
    requires s[p + 1..p + 1 + |name|] == name
    requires forall i :: p + 1 + |name| <= i < e ==> s[i] != '&' && !LineTerminator(s[i])
    ensures MatchEnd(s, p) == Some(e + 1)
  {
    ParamAt(s, p + 1, name);
    RunEndToAmp(s, p + 1 + |name|, e);
  }

  /** As written, a parameter in the middle of the query is removed together
      with both of its `&`s, so the parameters on either side run together. */
  lemma StripMiddleParameter(base: string, name: string, v: string, rest: string)
    requires name == "api-version=" || name == "$top="
    requires forall i :: 0 <= i < |v| ==> v[i] != '&' && !LineTerminator(v[i])
    requires var s := base + "&" + name + v + "&" + rest;
             NoMatch(s, 0, |base|) && NoMatch(s, |base| + 1 + |name| + |v|, |s|)
    ensures StripPaging(base + "&" + name + v + "&" + rest) == base + rest
  {
    var s := base + "&" + name + v + "&" + rest;
    var p := |base|;
    var e := p + 1 + |name| + |v|;
    MiddleLayout(base, name, v, rest);
    ValueStretch(s, p + 1 + |name|, v);
    MatchAt(s, p, name, e);
    StripAround(s, p, e + 1);
  }

  /** The example link, cut into the pieces the general lemmas speak of. */
  lemma ExampleLayout()
    ensures "?x=1&$top=5&y=2" == "?x=1" + "&" + "$top=" + "5" + "&" + "y=2"
    ensures var s := "?x=1&$top=5&y=2";
      s[0] == '?' && s[1] == 'x' && s[2] == '=' && s[3] == '1'
      && s[11] == '&' && s[12] == 'y' && s[13] == '=' && s[14] == '2'
  {
  }

  /** The input that shows it: `?x=1&$top=5&y=2` becomes `?x=1y=2`. */
  lemma StripMergesNeighbours()
    ensures StripPaging("?x=1&$top=5&y=2") == "?x=1y=2"
  {
    var s := "?x=1&$top=5&y=2";
    ExampleLayout();
    forall q | 0 <= q < 4
      ensures MatchEnd(s, q).None?
    {
      NoParamAt(s, q);
    }
    forall q | 11 <= q < |s|
      ensures MatchEnd(s, q).None?
    {
      NoParamAt(s, q);
      NoParamAt(s, q + 1);
    }
    StripMiddleParameter("?x=1", "$top=", "5", "y=2");
  }

  // ---------------------------------------------------------------------------
  // The rewrite as evidently intended: a parameter preceded by `&` is
  // removed with that `&` only, so the separator before the next one stays.

  /** `.*?(?=&|$)`: the index of the next `&` or the end, without taking it. */
  function RunStop(s: string, j: nat): (r: Option<nat>)
    requires j <= |s|
    ensures r.Some? ==> j <= r.value <= |s|
    decreases |s| - j
  {
    if j == |s| || s[j] == '&' then Some(j)
    else if LineTerminator(s[j]) then None
    else RunStop(s, j + 1)
  }

  /** `(api-version|\$top)=.*?(?=&|$)` at index `q`. */
  function ParamStop(s: string, q: nat): (r: Option<nat>)
    requires q <= |s|
    ensures r.Some? ==> q < r.value <= |s|
  {
    if StartsWith(s[q..], "api-version=") then RunStop(s, q + 12)
    else if StartsWith(s[q..], "$top=") then RunStop(s, q + 5)
    else None
  }

  /** The corrected match at `p`: with a leading `&`, up to the next `&`;
      without one, up to and including it. */
  function MatchEndFixed(s: string, p: nat): (r: Option<nat>)
    requires p < |s|
    ensures r.Some? ==> p < r.value <= |s|
  {
    if s[p] == '&' then ParamStop(s, p + 1) else ParamEnd(s, p)
  }

  function StripFixedFrom(s: string, p: nat): string
    requires p <= |s|
    decreases |s| - p
  {
    if p == |s| then ""
    else
      var m := MatchEndFixed(s, p);
      if m.Some? then StripFixedFrom(s, m.value) else [s[p]] + StripFixedFrom(s, p + 1)
  }

  /** The corrected rewrite of `nextLink`. */
  function StripPagingFixed(s: string): string
  {
    StripFixedFrom(s, 0)
  }

  /** The next page's URL, from the corrected rewrite of the body's
      `nextLink`; an empty rewrite falls back to `/incidents`. A null body
      makes the optional chain `body?.nextLink.replace(...)` undefined, which
      also falls back to `/incidents`; on any other body, calling `replace`
      throws unless the link is a string. */
  function NextPageUrl(body: Json): (r: Result<string>)
    ensures r.Ok? <==> body.JNull? || (Field(body, "nextLink").Some? && Field(body, "nextLink").value.JStr?)
    ensures r.Failure? ==> r.reason == Thrown
    ensures r.Ok? ==> r.value != ""
    ensures body.JNull? ==> r == Ok("/incidents")
    ensures r.Ok? && !body.JNull? ==>
              var stripped := StripPagingFixed(Field(body, "nextLink").value.s);
              r.value == stripped || (stripped == "" && r.value == "/incidents")
  {
    var link := Field(body, "nextLink");
    if body.JNull? then Ok("/incidents")
    else if link.None? || !link.value.JStr? then Failure(Thrown)
    else
      var stripped := StripPagingFixed(link.value.s);
      Ok(if stripped == "" then "/incidents" else stripped)
  }

  /** As written, the continue rule lets a `null` `nextLink` through, and the
      next-page expression then throws on `null.replace`. */
  lemma NullLinkThrows()
    ensures ContinuePaging(true, JObj(map["nextLink" := JNull]))
    ensures NextPageUrl(JObj(map["nextLink" := JNull])).Failure?
  {
    assert Field(JObj(map["nextLink" := JNull]), "nextLink") == Some(JNull);
  }

  /** The continue rule as intended: go on only when there is a link to follow. */
  function ContinuePagingFixed(returnAll: bool, body: Json): (r: bool)
    ensures r ==> ContinuePaging(returnAll, body)
  {
    returnAll && Field(body, "nextLink").Some? && Field(body, "nextLink").value.JStr?
  }

  /** Under the intended rule, every page that sends the loop on yields a next
      URL, and an object page with a link is followed whenever all results are
      asked for. */
  lemma ContinueFixedSafe(returnAll: bool, body: Json)
    ensures ContinuePagingFixed(returnAll, body) <==> returnAll && body.JObj? && NextPageUrl(body).Ok?
  {
  }

  /** Both runs fail at the same line terminators. */
  lemma {:induction false} RunsAgree(s: string, j: nat)
    requires j <= |s|
    ensures RunEnd(s, j).Some? <==> RunStop(s, j).Some?
    decreases |s| - j
  {
    if j < |s| && s[j] != '&' && !LineTerminator(s[j]) {
      RunsAgree(s, j + 1);
    }
  }

  /** The corrected rewrite finds a match exactly where the original does. */
  lemma MatchesAgree(s: string, p: nat)
    requires p < |s|
    ensures MatchEnd(s, p).Some? <==> MatchEndFixed(s, p).Some?
  {
    if s[p] == '&' {
      var q := p + 1;
      if StartsWith(s[q..], "api-version=") {
        RunsAgree(s, q + 12);
      } else if StartsWith(s[q..], "$top=") {
        RunsAgree(s, q + 5);
      }
    }
  }

  /** A stretch where no match starts is kept by the corrected rewrite too. */
  lemma {:induction false} StripFixedKeeps(s: string, p: nat, q: nat)
    requires p <= q <= |s| && NoMatch(s, p, q)
    ensures StripFixedFrom(s, p) == s[p..q] + StripFixedFrom(s, q)
    decreases q - p
  {
    if p < q {
      assert MatchEnd(s, p).None?;
      MatchesAgree(s, p);
      assert MatchEndFixed(s, p).None?;
      assert NoMatch(s, p + 1, q);
      StripFixedKeeps(s, p + 1, q);
      assert StripFixedFrom(s, p) == [s[p]] + StripFixedFrom(s, p + 1);
      assert s[p..q] == [s[p]] + s[p + 1..q];
      Associative([s[p]], s[p + 1..q], StripFixedFrom(s, q));
    }
  }

  /** A run with no `&` and no line terminator stops at the next `&`. */
  lemma {:induction false} RunStopAtAmp(s: string, j: nat, k: nat)
    requires j <= k <= |s| && (k < |s| ==> s[k] == '&')
    requires forall i :: j <= i < k ==> s[i] != '&' && !LineTerminator(s[i])
    ensures RunStop(s, j) == Some(k)
    decreases k - j
  {
    if j < k {
      RunStopAtAmp(s, j + 1, k);
    }
  }

  lemma Associative(a: string, b: string, c: string)
    ensures a + (b + c) == a + b + c
  {
  }

  /** The corrected rewrite of a URL with one match in it, at `p` up to `m`. */
  lemma StripFixedAround(s: string, p: nat, m: nat)
    requires p < m <= |s| && NoMatch(s, 0, p) && MatchEndFixed(s, p) == Some(m) && NoMatch(s, m, |s|)
    ensures StripPagingFixed(s) == s[..p] + s[m..]
  {
    var tail := StripFixedFrom(s, m);
    StripFixedKeeps(s, m, |s|);
    assert tail == s[m..|s|] + "";
    assert tail == s[m..];
    assert StripFixedFrom(s, p) == tail;
    StripFixedKeeps(s, 0, p);
    assert s[0..p] == s[..p];
  }

  /** A corrected match of `&name` followed by a value stops at the `&` at `e`. */
  lemma FixedMatchAt(s: string, p: nat, name: string, e: nat)
    requires name == "api-version=" || name == "$top="
    requires p + 1 + |name| <= e < |s| && s[p] == '&' && s[e] == '&'
    requires s[p + 1..p + 1 + |name|] == name
    requires forall i :: p + 1 + |name| <= i < e ==> s[i] != '&' && !LineTerminator(s[i])
    ensures MatchEndFixed(s, p) == Some(e)
  {
    ParamAt(s, p + 1, name);
    RunStopAtAmp(s, p + 1 + |name|, e);
  }

  /** The corrected match of a middle parameter stops before the next `&`. */
  lemma FixedMatchMiddle(base: string, name: string, v: string, rest: string)
    requires name == "api-version=" || name == "$top="
    requires forall i :: 0 <= i < |v| ==> v[i] != '&' && !LineTerminator(v[i])
    ensures var s := base + "&" + name + v + "&" + rest;
      MatchEndFixed(s, |base|) == Some(|base| + 1 + |name| + |v|)
  {
    var s := base + "&" + name + v + "&" + rest;
    var p := |base|;
    var e := p + 1 + |name| + |v|;
    MiddleLayout(base, name, v, rest);
    ValueStretch(s, p + 1 + |name|, v);
    FixedMatchAt(s, p, name, e);
  }

  /** Corrected, a middle parameter goes with its leading `&` only: the
      parameters on either side stay separated. */
  lemma StripFixedMiddle(base: string, name: string, v: string, rest: string)
    requires name == "api-version=" || name == "$top="
    requires forall i :: 0 <= i < |v| ==> v[i] != '&' && !LineTerminator(v[i])
    requires var s := base + "&" + name + v + "&" + rest;
             NoMatch(s, 0, |base|) && NoMatch(s, |base| + 1 + |name| + |v|, |s|)
    ensures StripPagingFixed(base + "&" + name + v + "&" + rest) == base + "&" + rest
  {
    var s := base + "&" + name + v + "&" + rest;
    var p := |base|;
    var e := p + 1 + |name| + |v|;
    FixedMatchMiddle(base, name, v, rest);
    StripFixedAround(s, p, e);
    MiddleLayout(base, name, v, rest);
    assert s[..p] + s[e..] == base + ("&" + rest);
    Associative(base, "&", rest);
  }

  /** Corrected, a trailing parameter still goes with its `&`, as before. */
  lemma StripFixedTrailing(base: string, name: string, v: string)
    requires name == "api-version=" || name == "$top="
    requires forall i :: 0 <= i < |v| ==> v[i] != '&' && !LineTerminator(v[i])
    requires NoMatch(base + "&" + name + v, 0, |base|)
    ensures StripPagingFixed(base + "&" + name + v) == base
    ensures StripPaging(base + "&" + name + v) == base
  {
    var s := base + "&" + name + v;
    var p := |base|;
    TrailingLayout(base, name, v);
    ValueStretch(s, p + 1 + |name|, v);
    ParamAt(s, p + 1, name);
    RunStopAtAmp(s, p + 1 + |name|, |s|);
    RunEndToEnd(s, p + 1 + |name|);
    assert MatchEndFixed(s, p) == Some(|s|);
    assert MatchEnd(s, p) == Some(|s|);
    StripFixedAround(s, p, |s|);
    StripAround(s, p, |s|);
  }

  /** Corrected, the example keeps its separator: `?x=1&$top=5&y=2` becomes
      `?x=1&y=2`. */
  lemma StripFixedExample()
    ensures StripPagingFixed("?x=1&$top=5&y=2") == "?x=1&y=2"
  {
    var s := "?x=1&$top=5&y=2";
    ExampleLayout();
    forall q | 0 <= q < 4
      ensures MatchEnd(s, q).None?
    {
      NoParamAt(s, q);
    }
    forall q | 11 <= q < |s|
      ensures MatchEnd(s, q).None?
    {
      NoParamAt(s, q);
      NoParamAt(s, q + 1);
    }
    StripFixedMiddle("?x=1", "$top=", "5", "y=2");
  }

  /** A URL with no `api-version=` or `$top=` parameter is left unchanged by
      the corrected rewrite as well. */
  lemma StripFixedUnchanged(s: string)
    requires NoMatch(s, 0, |s|)
    ensures StripPagingFixed(s) == s
  {
    StripFixedKeeps(s, 0, |s|);
  }

  /** Like the original, the corrected rewrite never makes the URL longer. */
  lemma {:induction false} StripFixedShorter(s: string, p: nat)
    requires p <= |s|
    ensures |StripFixedFrom(s, p)| <= |s| - p
    decreases |s| - p
  {
    if p < |s| {
      var m := MatchEndFixed(s, p);
      if m.Some? {
        StripFixedShorter(s, m.value);
      } else {
        StripFixedShorter(s, p + 1);
      }
    }
  }
}

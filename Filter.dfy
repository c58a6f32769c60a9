/** The OData `$filter` builder for listing incidents (the system query
    option `$filter` of section 5.1.1 of OData Version 4.0 Part 2, URL
    Conventions), and the date normaliser it shares with the field merge. */
module ODataFilter {
  import opened JsonValues
  import opened Text
  import opened HttpRequest

  // ---------------------------------------------------------------------------
  // Date normaliser

  /** The suffix test of the normaliser: the string ends in `Z`, or in a sign,
      two digits, a colon and two digits (the shapes of the `time-offset`
      production of section 5.6 of RFC 3339). */
  predicate EndsWithOffset(s: string)
  {
    (|s| >= 1 && s[|s| - 1] == 'Z')
    || (|s| >= 6 && (s[|s| - 6] == '+' || s[|s| - 6] == '-') && IsDigit(s[|s| - 5]) && IsDigit(s[|s| - 4])
        && s[|s| - 3] == ':' && IsDigit(s[|s| - 2]) && IsDigit(s[|s| - 1]))
  }

  /** A date value with an explicit offset is sent as it is; one without is
      taken to be UTC and gets `Z` appended. */
  function NormalizeDate(s: string): (r: string)
    ensures EndsWithOffset(r)
    ensures EndsWithOffset(s) ==> r == s
    ensures !EndsWithOffset(s) ==> r == s + "Z"
  {
    if EndsWithOffset(s) then s else s + "Z"
  }

  /** Normalising twice is normalising once. */
  lemma NormalizeDateIdempotent(s: string)
    ensures NormalizeDate(NormalizeDate(s)) == NormalizeDate(s)
  {
  }

  /** The normaliser changes its input exactly when the input has no offset,
      and then only by appending `Z`. */
  lemma NormalizeDateFixedPoints(s: string)
    ensures NormalizeDate(s) == s <==> EndsWithOffset(s)
    ensures NormalizeDate(s) != s ==> NormalizeDate(s)[..|s|] == s && NormalizeDate(s)[|s|..] == "Z"
  {
    if !EndsWithOffset(s) {
      assert |NormalizeDate(s)| == |s| + 1;
    }
  }

  // ---------------------------------------------------------------------------
  // OR-groups

  /** `buildODataFilterClause`: the values joined so that each one becomes a
      comparison `property operator 'value'`, inside one pair of parentheses. */
  function ODataClause(property: string, operator: string, values: seq<string>): string
  {
    "(" + property + " " + operator + " '" + Join(values, "' or " + property + " " + operator + " '") + "')"
  }

  /** One comparison of an OR-group. */
  function Comparison(property: string, operator: string, value: string): string
  {
    property + " " + operator + " '" + value + "'"
  }

  function Comparisons(property: string, operator: string, values: seq<string>): (r: seq<string>)
    ensures |r| == |values|
    ensures forall i :: 0 <= i < |values| ==> r[i] == Comparison(property, operator, values[i])
  {
    seq(|values|, i requires 0 <= i < |values| => Comparison(property, operator, values[i]))
  }

  /** A direct reading of an OR-group: the comparisons joined by ` or `,
      parenthesised. */
  function OrGroup(property: string, operator: string, values: seq<string>): string
  {
    "(" + Join(Comparisons(property, operator, values), " or ") + ")"
  }

  lemma {:induction false} ClauseInside(property: string, operator: string, values: seq<string>)
    requires |values| >= 1
    ensures property + " " + operator + " '" + Join(values, "' or " + property + " " + operator + " '") + "'"
         == Join(Comparisons(property, operator, values), " or ")
  {
    var head := property + " " + operator + " '";
    var sep := "' or " + head;
    assert sep == "'" + " or " + head;
    assert sep == "' or " + property + " " + operator + " '";
    if |values| > 1 {
      ClauseInside(property, operator, values[1..]);
      assert Comparisons(property, operator, values)[1..] == Comparisons(property, operator, values[1..]);
      var tail := Join(values[1..], sep);
      calc {
        head + Join(values, sep) + "'";
        head + (values[0] + sep + tail) + "'";
        head + (values[0] + ("'" + " or " + head) + tail) + "'";
        (head + values[0] + "'") + " or " + (head + tail + "'");
        Comparison(property, operator, values[0]) + " or " + (head + tail + "'");
        Comparison(property, operator, values[0]) + " or " + Join(Comparisons(property, operator, values[1..]), " or ");
      }
    }
  }

  /** The joined form the code builds is exactly the OR-group of the values,
      for every non-empty list of values. */
  lemma ODataClauseIsOrGroup(property: string, operator: string, values: seq<string>)
    requires |values| >= 1
    ensures ODataClause(property, operator, values) == OrGroup(property, operator, values)
  {
    ClauseInside(property, operator, values);
    var head := property + " " + operator + " '";
    var sep := "' or " + head;
    assert sep == "' or " + property + " " + operator + " '";
    assert "')" == "'" + ")";
    calc {
      ODataClause(property, operator, values);
      "(" + head + Join(values, sep) + "')";
      "(" + head + Join(values, sep) + ("'" + ")");
      "(" + (head + Join(values, sep) + "'") + ")";
      OrGroup(property, operator, values);
    }
  }

  // ---------------------------------------------------------------------------
  // Filter input

  /** A severity or status filter: one string (possibly comma-joined) or a list. */
  datatype ValueFilter = Single(text: string) | Many(items: seq<string>)

  /** `IncidentFilters` (nodes/Microsoft/Sentinel/types.ts); None is an
      absent field. */
  datatype IncidentFilters = IncidentFilters(
    createdAfter: Option<string>,
    modifiedAfter: Option<string>,
    incidentId: Option<string>,
    title: Option<string>,
    severity: Option<ValueFilter>,
    status: Option<ValueFilter>,
    filter: Option<string>)

  /** A string field that is present and truthy. */
  predicate Given(o: Option<string>)
  {
    o.Some? && o.value != ""
  }

  /** `filters.severity && filters.severity.length` */
  predicate GivenValues(o: Option<ValueFilter>)
  {
    o.Some? && match o.value
      case Single(t) => t != ""
      case Many(xs) => |xs| > 0
  }

  function DropSpaces(s: string): (r: string)
    ensures |r| <= |s| && (|r| > 0 ==> r[0] != ' ')
  {
    if |s| > 0 && s[0] == ' ' then DropSpaces(s[1..]) else s
  }

  // `s.split(/, */)`: cut at every comma, and drop the run of spaces that
  // follows each comma.
  function SplitCommaSpaces(s: string): (r: seq<string>)
    ensures |r| >= 1
  {
    var parts := Split(s, ',');
    [parts[0]] + seq(|parts| - 1, i requires 0 <= i < |parts| - 1 => DropSpaces(parts[i + 1]))
  }

  lemma {:induction false} DropPadding(pad: string, s: string)
    requires forall i :: 0 <= i < |pad| ==> pad[i] == ' '
    requires |s| == 0 || s[0] != ' '
    ensures DropSpaces(pad + s) == s
  {
    if |pad| > 0 {
      assert (pad + s)[1..] == pad[1..] + s;
      DropPadding(pad[1..], s);
    } else {
      assert pad + s == s;
    }
  }

  /** A list joined with a comma and any number of spaces splits back into
      the same list, when no value holds a comma or starts with a space. */
  lemma SplitCommaSpacesJoin(values: seq<string>, pad: string)
    requires |values| >= 1
    requires forall i :: 0 <= i < |pad| ==> pad[i] == ' '
    requires forall i :: 0 <= i < |values| ==> ',' !in values[i] && (|values[i]| == 0 || values[i][0] != ' ')
    ensures SplitCommaSpaces(Join(values, [','] + pad)) == values
  {
    JoinPadded(values, ',', pad);
    var padded := PadTail(values, pad);
    assert ',' !in pad;
    forall i | 0 <= i < |padded| ensures ',' !in padded[i] {
      if i > 0 {
        assert padded[i] == pad + values[i];
      }
    }
    SplitJoin(padded, ',');
    var r := SplitCommaSpaces(Join(values, [','] + pad));
    forall i | 0 < i < |values| ensures r[i] == values[i] {
      DropPadding(pad, values[i]);
    }
  }

  /** The values of a severity or status filter. */
  function FilterValues(v: ValueFilter): seq<string>
  {
    match v
    case Single(t) => SplitCommaSpaces(t)
    case Many(xs) => xs
  }

  /** The clause of one severity or status filter, if it is given. */
  function GroupClause(property: string, v: Option<ValueFilter>): (r: seq<string>)
    ensures |r| == if GivenValues(v) then 1 else 0
  {
    if GivenValues(v) then [ODataClause(property, "eq", FilterValues(v.value))] else []
  }

  /** A comma-joined string gives the same clause as the list it joins. */
  lemma GroupClauseTextMatchesList(property: string, values: seq<string>, pad: string)
    requires |values| >= 1
    requires forall i :: 0 <= i < |pad| ==> pad[i] == ' '
    requires forall i :: 0 <= i < |values| ==> values[i] != "" && ',' !in values[i] && values[i][0] != ' '
    ensures GroupClause(property, Some(Single(Join(values, [','] + pad))))
         == GroupClause(property, Some(Many(values)))
  {
    SplitCommaSpacesJoin(values, pad);
    var joined := Join(values, [','] + pad);
    assert |values[0]| > 0;
    JoinStartsWith(values, [','] + pad);
    assert joined != "";
  }

  lemma {:induction false} JoinStartsWith(parts: seq<string>, sep: string)
    requires |parts| >= 1
    ensures StartsWith(Join(parts, sep), parts[0])
  {
    if |parts| > 1 {
      assert Join(parts, sep) == parts[0] + (sep + Join(parts[1..], sep));
    }
  }

  // ---------------------------------------------------------------------------
  // Title escaping

  /** `title.replace(/'/g, '%27')` */
  function EscapeQuotes(title: string): (r: string)
    ensures '\'' !in r
    ensures |r| >= |title|
  {
    if title == "" then ""
    else (if title[0] == '\'' then "%27" else [title[0]]) + EscapeQuotes(title[1..])
  }

  /** Reads every `%27` back as an apostrophe. */
  function UnescapeQuotes(s: string): string
  {
    if |s| >= 3 && s[..3] == "%27" then "'" + UnescapeQuotes(s[3..])
    else if s == "" then ""
    else [s[0]] + UnescapeQuotes(s[1..])
  }

  /** The escaping loses nothing for a title without `%`. */
  lemma {:induction false} UnescapeEscape(title: string)
    requires '%' !in title
    ensures UnescapeQuotes(EscapeQuotes(title)) == title
  {
    if title != "" {
      UnescapeEscape(title[1..]);
      var rest := EscapeQuotes(title[1..]);
      if title[0] == '\'' {
        assert EscapeQuotes(title) == "%27" + rest;
        assert ("%27" + rest)[..3] == "%27" && ("%27" + rest)[3..] == rest;
      } else {
        assert EscapeQuotes(title) == [title[0]] + rest;
        assert ([title[0]] + rest)[1..] == rest;
      }
      assert title == [title[0]] + title[1..];
    }
  }

  // ---------------------------------------------------------------------------
  // The clauses and the pre-send callback

  function CreatedAfterClause(date: string): string
  {
    "properties/createdTimeUtc ge " + NormalizeDate(date)
  }

  function ModifiedAfterClause(date: string): string
  {
    "properties/lastModifiedTimeUtc ge " + NormalizeDate(date)
  }

  function IncidentNumberClause(id: string): string
  {
    "properties/incidentNumber eq " + id
  }

  function TitleContainsClause(title: string): string
  {
    "contains(toLower(properties/title), '" + EscapeQuotes(title) + "')"
  }

  function RawFilterClause(filter: string): string
  {
    "(" + filter + ")"
  }

  function CreatedClause(f: IncidentFilters): (r: seq<string>)
    ensures |r| == if Given(f.createdAfter) then 1 else 0
  {
    if Given(f.createdAfter) then [CreatedAfterClause(f.createdAfter.value)] else []
  }

  function ModifiedClause(f: IncidentFilters): (r: seq<string>)
    ensures |r| == if Given(f.modifiedAfter) then 1 else 0
  {
    if Given(f.modifiedAfter) then [ModifiedAfterClause(f.modifiedAfter.value)] else []
  }

  function IdClause(f: IncidentFilters): (r: seq<string>)
    ensures |r| == if Given(f.incidentId) then 1 else 0
  {
    if Given(f.incidentId) then [IncidentNumberClause(f.incidentId.value)] else []
  }

  function TitleClause(f: IncidentFilters): (r: seq<string>)
    ensures |r| == if Given(f.title) then 1 else 0
  {
    if Given(f.title) then [TitleContainsClause(f.title.value)] else []
  }

  function RawClause(f: IncidentFilters): (r: seq<string>)
    ensures |r| == if Given(f.filter) then 1 else 0
  {
    if Given(f.filter) then [RawFilterClause(f.filter.value)] else []
  }

  /** The clauses in their fixed order: createdAfter, modifiedAfter,
      incidentId, title, severity, status, raw filter. */
  function FilterClauses(f: IncidentFilters): seq<string>
  {
    CreatedClause(f) + ModifiedClause(f) + IdClause(f) + TitleClause(f)
    + GroupClause("properties/severity", f.severity) + GroupClause("properties/status", f.status)
    + RawClause(f)
  }

  predicate AnyFilterGiven(f: IncidentFilters)
  {
    Given(f.createdAfter) || Given(f.modifiedAfter) || Given(f.incidentId) || Given(f.title)
    || GivenValues(f.severity) || GivenValues(f.status) || Given(f.filter)
  }

  /** Number of fields that contribute a clause. */
  function GivenCount(f: IncidentFilters): nat
  {
    (if Given(f.createdAfter) then 1 else 0) + (if Given(f.modifiedAfter) then 1 else 0)
    + (if Given(f.incidentId) then 1 else 0) + (if Given(f.title) then 1 else 0)
    + (if GivenValues(f.severity) then 1 else 0) + (if GivenValues(f.status) then 1 else 0)
    + (if Given(f.filter) then 1 else 0)
  }

  /** One clause per given field and none for the others; so no clause at
      all exactly when no field is given. */
  lemma FilterClausesCount(f: IncidentFilters)
    ensures |FilterClauses(f)| == GivenCount(f) <= 7
    ensures FilterClauses(f) == [] <==> !AnyFilterGiven(f)
  {
  }

  /** With the raw filter alone, the `$filter` value is that filter in parentheses. */
  lemma RawFilterAlone(f: IncidentFilters)
    requires Given(f.filter)
    requires !Given(f.createdAfter) && !Given(f.modifiedAfter) && !Given(f.incidentId) && !Given(f.title)
    requires !GivenValues(f.severity) && !GivenValues(f.status)
    ensures Join(FilterClauses(f), " and ") == RawFilterClause(f.filter.value) == "(" + f.filter.value + ")"
  {
  }

  /** A listing with only a severity list filters on exactly that OR-group. */
  lemma SeverityListAlone(f: IncidentFilters, values: seq<string>)
    requires f.severity == Some(Many(values)) && |values| >= 1
    requires !Given(f.createdAfter) && !Given(f.modifiedAfter) && !Given(f.incidentId) && !Given(f.title)
    requires !GivenValues(f.status) && !Given(f.filter)
    ensures Join(FilterClauses(f), " and ") == OrGroup("properties/severity", "eq", values)
  {
    ODataClauseIsOrGroup("properties/severity", "eq", values);
  }

  /** A title clause never carries a bare apostrophe into the filter value. */
  lemma TitleClauseEscaped(f: IncidentFilters)
    requires Given(f.title)
    ensures TitleContainsClause(f.title.value) in FilterClauses(f)
    ensures '\'' !in EscapeQuotes(f.title.value)
  {
  }

  /** The query parameters after the filter is built: unchanged when no
      field is given, otherwise `$filter` holds the clauses joined by ` and `. */
  function WithFilter(qs: Props, f: IncidentFilters): Props
  {
    if |FilterClauses(f)| == 0 then qs else qs["$filter" := JStr(Join(FilterClauses(f), " and "))]
  }

  /** Building the filter touches `$filter` only, and sets it exactly when
      some field is given. */
  lemma WithFilterKeys(qs: Props, f: IncidentFilters)
    ensures "$filter" in WithFilter(qs, f) <==> AnyFilterGiven(f) || "$filter" in qs
    ensures AnyFilterGiven(f) ==> WithFilter(qs, f)["$filter"] == JStr(Join(FilterClauses(f), " and "))
    ensures forall k :: k != "$filter" ==> (k in WithFilter(qs, f) <==> k in qs)
    ensures forall k :: k != "$filter" && k in qs ==> WithFilter(qs, f)[k] == qs[k]
  {
    FilterClausesCount(f);
  }

  /** The first half of `buildFilterString`: the clauses of the date, the
      incident-number and the title filters, in that order. */
  method ScalarClauses(f: IncidentFilters) returns (clauses: seq<string>)
    ensures clauses == CreatedClause(f) + ModifiedClause(f) + IdClause(f) + TitleClause(f)
  {
    clauses := [];
    if Given(f.createdAfter) {
      clauses := clauses + [CreatedAfterClause(f.createdAfter.value)];
    }
    assert clauses == CreatedClause(f);
    ghost var before := clauses;
    if Given(f.modifiedAfter) {
      clauses := clauses + [ModifiedAfterClause(f.modifiedAfter.value)];
    }
    assert clauses == before + ModifiedClause(f);
    before := clauses;
    if Given(f.incidentId) {
      clauses := clauses + [IncidentNumberClause(f.incidentId.value)];
    }
    assert clauses == before + IdClause(f);
    before := clauses;
    if Given(f.title) {
      clauses := clauses + [TitleContainsClause(f.title.value)];
    }
    assert clauses == before + TitleClause(f);
  }

  /** `buildFilterString`: collects the clauses and, when there is at least
      one, sets `qs.$filter` to them joined by ` and `, keeping the other
      query parameters. */
  method BuildFilterString(opts: RequestOptions, f: IncidentFilters)
    modifies opts
    ensures opts.qs == WithFilter(old(opts.qs), f)
    ensures opts.url == old(opts.url) && opts.body == old(opts.body)
  {
    var clauses := ScalarClauses(f);
    ghost var before := clauses;
    if GivenValues(f.severity) {
      clauses := clauses + [ODataClause("properties/severity", "eq", FilterValues(f.severity.value))];
    }
    assert clauses == before + GroupClause("properties/severity", f.severity);
    before := clauses;
    if GivenValues(f.status) {
      clauses := clauses + [ODataClause("properties/status", "eq", FilterValues(f.status.value))];
    }
    assert clauses == before + GroupClause("properties/status", f.status);
    before := clauses;
    if Given(f.filter) {
      clauses := clauses + [RawFilterClause(f.filter.value)];
    }
    assert clauses == before + RawClause(f);
    assert clauses == FilterClauses(f);
    if |clauses| > 0 {
      opts.qs := opts.qs["$filter" := JStr(Join(clauses, " and "))];
    }
  }
}

/** The response reshapers every operation's output goes through:
    `processQueryResults` (KQL tables to items) and `prepareOutput`
    (envelope flattening, splitting or grouping). */
module ResponseShaping {
  import opened JsonValues
  import opened Text

  /** An output item of the node: its JSON and the index of the input item
      it belongs to. */
  datatype Item = Item(json: Props, pairedItem: nat)

  // ---------------------------------------------------------------------------
  // prepareOutput

  /** The simple form of a resource envelope: `id` from `name`, `kind`, then
      the keys of `properties` (which win over both), then `etag`, which wins
      over a `properties.etag`. An undefined value leaves no key. */
  function SimplifyEnvelope(j: Props): Props
  {
    PutOpt(PutOpt(PutOpt(map[], "id", Get(j, "name")), "kind", Get(j, "kind")) + Spread(Get(j, "properties")),
           "etag", Get(j, "etag"))
  }

  /** What the simple form holds, key by key. */
  lemma SimplifyEnvelopeAt(j: Props, k: string)
    ensures var r := SimplifyEnvelope(j);
            var props := Spread(Get(j, "properties"));
            (k == "etag" ==> (k in r <==> k in j) && (k in j ==> r[k] == j[k]))
            && (k != "etag" && k in props ==> k in r && r[k] == props[k])
            && (k == "id" && k !in props ==> (k in r <==> "name" in j) && ("name" in j ==> r[k] == j["name"]))
            && (k == "kind" && k !in props ==> (k in r <==> "kind" in j) && ("kind" in j ==> r[k] == j["kind"]))
            && (k != "etag" && k != "id" && k != "kind" && k !in props ==> k !in r)
  {
    var base := PutOpt(PutOpt(map[], "id", Get(j, "name")), "kind", Get(j, "kind"));
    var props := Spread(Get(j, "properties"));
    if k != "etag" {
      assert k in SimplifyEnvelope(j) <==> k in base + props;
    }
  }

  /** The grouping key: the operation name lower-cased, without a leading `get`. */
  function OutKey(operation: string): string
  {
    var key := ToLower(operation);
    if StartsWith(key, "get") then key[3..] else key
  }

  /** The grouping key is the lower-cased operation with at most one leading
      `get` removed, and it holds no upper-case ASCII letter. */
  lemma OutKeyShape(operation: string)
    ensures ToLower(operation) == OutKey(operation) || ToLower(operation) == "get" + OutKey(operation)
    ensures StartsWith(ToLower(operation), "get") <==> ToLower(operation) == "get" + OutKey(operation)
    ensures forall i :: 0 <= i < |OutKey(operation)| ==> !('A' <= OutKey(operation)[i] <= 'Z')
  {
    var key := ToLower(operation);
    if StartsWith(key, "get") {
      assert key == key[..3] + key[3..];
    }
  }

  /** The items after `prepareOutput`'s map step: every pairedItem set to the
      current item index, and the JSON simplified in simple mode. */
  function Formatted(items: seq<Item>, simple: bool, itemIndex: nat): (r: seq<Item>)
    ensures |r| == |items|
    ensures forall i :: 0 <= i < |items| ==>
              r[i] == Item(if simple then SimplifyEnvelope(items[i].json) else items[i].json, itemIndex)
  {
    seq(|items|, i requires 0 <= i < |items| => Item(if simple then SimplifyEnvelope(items[i].json) else items[i].json, itemIndex))
  }

  /** The JSON of every item, in order. */
  function Jsons(items: seq<Item>): (r: seq<Json>)
    ensures |r| == |items|
    ensures forall i :: 0 <= i < |items| ==> r[i] == JObj(items[i].json)
  {
    seq(|items|, i requires 0 <= i < |items| => JObj(items[i].json))
  }

  /** `prepareOutput`. */
  function PrepareOutput(items: seq<Item>, simple: bool, splitResults: bool, operation: string, itemIndex: nat): seq<Item>
  {
    var formatted := Formatted(items, simple, itemIndex);
    if splitResults then formatted
    else [Item(map[OutKey(operation) := JArr(Jsons(formatted))], itemIndex)]
  }

  /** Split results keep the count and the order of the items. */
  lemma PrepareOutputSplit(items: seq<Item>, simple: bool, operation: string, itemIndex: nat)
    ensures var r := PrepareOutput(items, simple, true, operation, itemIndex);
            |r| == |items|
            && forall i :: 0 <= i < |items| ==>
                 r[i].pairedItem == itemIndex && r[i].json == (if simple then SimplifyEnvelope(items[i].json) else items[i].json)
  {
  }

  /** Grouped results are one item whose only key is the grouping key,
      holding every item's JSON in order. */
  lemma PrepareOutputGrouped(items: seq<Item>, simple: bool, operation: string, itemIndex: nat)
    ensures var r := PrepareOutput(items, simple, false, operation, itemIndex);
            |r| == 1 && r[0].json.Keys == {OutKey(operation)}
            && r[0].json[OutKey(operation)].JArr?
            && var all := r[0].json[OutKey(operation)].elems;
               |all| == |items|
               && forall i :: 0 <= i < |items| ==>
                    all[i] == JObj(if simple then SimplifyEnvelope(items[i].json) else items[i].json)
  {
  }

  /** The `value` root property of a list response, the step the getAll
      routing runs before `prepareOutput`: the elements of the `value` array,
      one item each, with the current item index. */
  function ValueItems(body: Json, itemIndex: nat): (r: Option<seq<Item>>)
    ensures r.Some? ==> exists vs :: Field(body, "value") == Some(JArr(vs)) && |r.value| == |vs|
  {
    match Field(body, "value")
    case Some(JArr(vs)) =>
      if forall i :: 0 <= i < |vs| ==> vs[i].JObj? then
        Some(seq(|vs|, i requires 0 <= i < |vs| => Item(vs[i].fields, itemIndex)))
      else None
    case _ => None
  }

  /** getAll's output: the `value` array's objects, formatted by
      `prepareOutput`. */
  function ListOutput(body: Json, simple: bool, splitResults: bool, operation: string, itemIndex: nat): Option<seq<Item>>
  {
    var items := ValueItems(body, itemIndex);
    if items.None? then None else Some(PrepareOutput(items.value, simple, splitResults, operation, itemIndex))
  }

  /** Split getAll output has one item per listed incident, in the listed order. */
  lemma ListOutputSplit(body: Json, simple: bool, operation: string, itemIndex: nat, vs: seq<Json>)
    requires Field(body, "value") == Some(JArr(vs))
    requires forall i :: 0 <= i < |vs| ==> vs[i].JObj?
    ensures ListOutput(body, simple, true, operation, itemIndex).Some?
    ensures var r := ListOutput(body, simple, true, operation, itemIndex).value;
            |r| == |vs|
            && forall i :: 0 <= i < |vs| ==> r[i].json == (if simple then SimplifyEnvelope(vs[i].fields) else vs[i].fields)
  {
  }

  // ---------------------------------------------------------------------------
  // processQueryResults

  /** A column object with a string `ColumnName`. */
  predicate NamedColumn(column: Json)
  {
    Field(column, "ColumnName").Some? && Field(column, "ColumnName").value.JStr?
  }

  /** The column names of a KQL table; a column that is not an object with
      a string `ColumnName` is rejected. */
  function ColumnNames(columns: seq<Json>): (r: Result<seq<string>>)
    ensures r.Ok? <==> forall i :: 0 <= i < |columns| ==> NamedColumn(columns[i])
    ensures r.Ok? ==> |r.value| == |columns|
                      && forall i :: 0 <= i < |columns| ==> Field(columns[i], "ColumnName") == Some(JStr(r.value[i]))
  {
    if |columns| == 0 then Ok([])
    else
      var rest := ColumnNames(columns[1..]);
      if !NamedColumn(columns[0]) || rest.Failure? then Failure("TypeError")
      else Ok([Field(columns[0], "ColumnName").value.s] + rest.value)
  }

  /** `row[index]` on a row that is not null: an array's element, a
      string's one-character string, an object's property named by the
      index's decimal form; undefined beyond an array or a string and on a
      number or a boolean, which have no such property. */
  function Cell(row: Json, index: nat): (r: Option<Json>)
    requires !row.JNull?
    ensures row.JArr? ==> (r.Some? <==> index < |row.elems|) && (index < |row.elems| ==> r == Some(row.elems[index]))
    ensures row.JStr? ==> (r.Some? <==> index < |row.s|) && (index < |row.s| ==> r == Some(JStr([row.s[index]])))
    ensures row.JObj? ==> (r.Some? <==> DecimalString(index) in row.fields)
                          && (r.Some? ==> r.value == row.fields[DecimalString(index)])
    ensures row.JNum? || row.JBool? ==> r.None?
  {
    match row
    case JArr(elems) => if index < |elems| then Some(elems[index]) else None
    case JStr(s) => if index < |s| then Some(JStr([s[index]])) else None
    case JObj(fields) => Get(fields, DecimalString(index))
    case _ => None
  }

  /** The record of one row: the columns are assigned in order, so a later
      column of the same name overwrites an earlier one. A null row has no
      cells to read, so it needs there to be no column. */
  function RowRecord(names: seq<string>, row: Json): Props
    requires |names| == 0 || !row.JNull?
  {
    if |names| == 0 then map[]
    else PutOpt(RowRecord(names[..|names| - 1], row), names[|names| - 1], Cell(row, |names| - 1))
  }

  /** The last index of `name` among the column names. */
  function LastIndex(names: seq<string>, name: string): (r: Option<nat>)
    ensures r.Some? ==> r.value < |names| && names[r.value] == name
                        && forall j :: r.value < j < |names| ==> names[j] != name
    ensures r.None? ==> name !in names
  {
    if |names| == 0 then None
    else if names[|names| - 1] == name then Some(|names| - 1)
    else LastIndex(names[..|names| - 1], name)
  }

  /** A record holds, under each column name, the row's cell at the last
      column of that name (absent when the row is too short), and no other key. */
  lemma {:induction false} RowRecordAt(names: seq<string>, row: Json, name: string)
    requires |names| == 0 || !row.JNull?
    ensures var rec := RowRecord(names, row);
            match LastIndex(names, name)
            case None => name !in rec
            case Some(i) => (name in rec <==> Cell(row, i).Some?) && (name in rec ==> rec[name] == Cell(row, i).value)
  {
    if |names| > 0 {
      var init := names[..|names| - 1];
      if names[|names| - 1] != name {
        RowRecordAt(init, row, name);
        assert LastIndex(names, name) == LastIndex(init, name);
      }
    }
  }

  /** The JSON records of a table's rows; None when a row is null and
      there is a column to read from it. */
  function RowRecords(names: seq<string>, rows: seq<Json>): (r: Option<seq<Props>>)
    ensures r.Some? <==> |names| == 0 || forall i :: 0 <= i < |rows| ==> !rows[i].JNull?
    ensures r.Some? ==> |r.value| == |rows|
                        && forall i :: 0 <= i < |rows| ==> r.value[i] == RowRecord(names, rows[i])
  {
    if |names| == 0 || forall i :: 0 <= i < |rows| ==> !rows[i].JNull? then
      Some(seq(|rows|, i requires 0 <= i < |rows| => RowRecord(names, rows[i])))
    else None
  }

  /** Rows that are not arrays are indexed as JavaScript indexes them: a
      string by character, an object by its `"0"`, `"1"`, ... keys, and a number
      has no cells; only a null row fails, and only when there is a column. */
  lemma NonArrayRows()
    ensures RowRecord(["a", "b"], JStr("xy")) == map["a" := JStr("x"), "b" := JStr("y")]
    ensures RowRecord(["a", "b"], JObj(map["0" := JBool(true)])) == map["a" := JBool(true)]
    ensures RowRecord(["a"], JNum(5)) == map[]
    ensures RowRecords(["a"], [JArr([]), JNull]).None?
    ensures RowRecords([], [JNull]) == Some([map[]])
  {
    assert DecimalString(0) == "0";
    assert DecimalString(1) == "1";
    assert [JArr([]), JNull][1].JNull?;
    var none := RowRecords([], [JNull]);
    assert none.value[0] == RowRecord([], JNull) == map[];
    assert none.value == [map[]];
  }

  /** The first table of a query response, as its columns and rows. */
  datatype Table = Table(columns: Json, rows: seq<Json>)

  /** `Tables[0]`: an array's first element, or the `"0"` property of an
      object; a string's first character has no `Rows`, and any other value
      has no element 0. */
  function FirstElement(tables: Option<Json>): Option<Json>
  {
    match tables
    case Some(JArr(ts)) => if |ts| == 0 then None else Some(ts[0])
    case Some(JObj(fields)) => Get(fields, "0")
    case _ => None
  }

  /** `response.body.Tables[0]` with its `Rows` array; reading any of it
      from a value of the wrong shape throws, and `rows.forEach` throws
      unless `Rows` is an array. */
  function FirstTable(body: Json): Result<Table>
  {
    var first := FirstElement(Field(body, "Tables"));
    if first.None? || !first.value.JObj? then Failure("TypeError")
    else
      var columns := if "Columns" in first.value.fields then first.value.fields["Columns"] else JNull;
      var rows := Field(first.value, "Rows");
      if rows.Some? && rows.value.JArr? then Ok(Table(columns, rows.value.elems)) else Failure("TypeError")
  }

  /** The items `processQueryResults` returns, or the TypeError it throws.
      The columns are read only for a row, so a table without rows yields no
      items whatever its columns. */
  function QueryItems(body: Json, itemIndex: nat): Result<seq<Item>>
  {
    var table := FirstTable(body);
    if table.Failure? then Failure(table.reason)
    else if |table.value.rows| == 0 then Ok([])
    else if !table.value.columns.JArr? then Failure("TypeError")
    else
      var names := ColumnNames(table.value.columns.elems);
      if names.Failure? then Failure(names.reason)
      else
        var records := RowRecords(names.value, table.value.rows);
        if records.None? then Failure("TypeError")
        else Ok(seq(|records.value|, i requires 0 <= i < |records.value| => Item(records.value[i], itemIndex)))
  }

  /** One item per row, in row order, each the row's record. */
  lemma QueryItemsRows(body: Json, itemIndex: nat)
    requires QueryItems(body, itemIndex).Ok?
    ensures FirstTable(body).Ok?
    ensures var rows := FirstTable(body).value.rows;
            var items := QueryItems(body, itemIndex).value;
            |items| == |rows|
            && (|rows| > 0 ==>
                  FirstTable(body).value.columns.JArr?
                  && ColumnNames(FirstTable(body).value.columns.elems).Ok?
                  && var names := ColumnNames(FirstTable(body).value.columns.elems).value;
                     forall i :: 0 <= i < |rows| ==>
                       (|names| == 0 || !rows[i].JNull?) && items[i].pairedItem == itemIndex
                       && items[i].json == RowRecord(names, rows[i]))
  {
  }

  /** `processQueryResults`: the rows are walked in order and each row's
      columns in order. */
  method ProcessQueryResults(body: Json, itemIndex: nat) returns (r: Result<seq<Item>>)
    ensures r == QueryItems(body, itemIndex)
  {
    var table := FirstTable(body);
    if table.Failure? {
      return Failure(table.reason);
    }
    var rows := table.value.rows;
    var columns := table.value.columns;
    if |rows| == 0 {
      return Ok([]);
    }
    if !columns.JArr? {
      return Failure("TypeError");
    }
    var names := ColumnNames(columns.elems);
    if names.Failure? {
      return Failure(names.reason);
    }
    var items: seq<Item> := [];
    var i := 0;
    while i < |rows|
      invariant 0 <= i <= |rows|
      invariant |items| == i
      invariant forall k :: 0 <= k < i ==> (|names.value| == 0 || !rows[k].JNull?)
                                           && items[k] == Item(RowRecord(names.value, rows[k]), itemIndex)
    {
      var row := rows[i];
      var rowData: Props := map[];
      var j := 0;
      while j < |names.value|
        invariant 0 <= j <= |names.value|
        invariant j > 0 ==> !row.JNull?
        invariant rowData == RowRecord(names.value[..j], row)
      {
        if row.JNull? {
          return Failure("TypeError");
        }
        rowData := PutOpt(rowData, names.value[j], Cell(row, j));
        assert names.value[..j + 1][..j] == names.value[..j];
        j := j + 1;
      }
      assert names.value[..j] == names.value;
      items := items + [Item(rowData, itemIndex)];
      i := i + 1;
    }
    ghost var records := RowRecords(names.value, rows);
    assert records.Some?;
    assert items == seq(|records.value|, k requires 0 <= k < |records.value| => Item(records.value[k], itemIndex));
    r := Ok(items);
  }
}

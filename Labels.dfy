/** Incident labels: `parseLabels` and the list operations the incident
    callbacks apply to the current labels (append new names, remove names). */
module Labels {
  import opened JsonValues
  import opened Text

  // ---------------------------------------------------------------------------
  // parseLabels

  /** The non-empty strings of a list, in order; other elements are dropped. */
  function NonEmptyStrings(xs: seq<Json>): (r: seq<string>)
    ensures |r| <= |xs|
    ensures forall i :: 0 <= i < |r| ==> r[i] != "" && JStr(r[i]) in xs
  {
    if |xs| == 0 then []
    else (if xs[0].JStr? && xs[0].s != "" then [xs[0].s] else []) + NonEmptyStrings(xs[1..])
  }

  /** Keeping the non-empty strings distributes over concatenation. */
  lemma {:induction false} NonEmptyStringsAppend(xs: seq<Json>, ys: seq<Json>)
    ensures NonEmptyStrings(xs + ys) == NonEmptyStrings(xs) + NonEmptyStrings(ys)
  {
    if |xs| > 0 {
      assert (xs + ys)[1..] == xs[1..] + ys;
      NonEmptyStringsAppend(xs[1..], ys);
    } else {
      assert xs + ys == ys;
    }
  }

  /** The strings as JSON values. */
  function AsJson(names: seq<string>): (r: seq<Json>)
    ensures |r| == |names| && forall i :: 0 <= i < |names| ==> r[i] == JStr(names[i])
  {
    seq(|names|, i requires 0 <= i < |names| => JStr(names[i]))
  }

  /** A list of non-empty strings comes back whole: nothing is dropped,
      reordered or deduplicated. */
  lemma {:induction false} NonEmptyStringsKeepsAll(names: seq<string>)
    requires forall i :: 0 <= i < |names| ==> names[i] != ""
    ensures NonEmptyStrings(AsJson(names)) == names
  {
    if |names| > 0 {
      assert AsJson(names)[1..] == AsJson(names[1..]);
      NonEmptyStringsKeepsAll(names[1..]);
    }
  }

  /** The trimmed pieces of a string, without the empty ones. */
  function NonEmptyTrimmed(pieces: seq<string>): (r: seq<string>)
    ensures |r| <= |pieces|
    ensures forall i :: 0 <= i < |r| ==> r[i] != "" && Trimmed(r[i])
  {
    if |pieces| == 0 then []
    else (if Trim(pieces[0]) != "" then [Trim(pieces[0])] else []) + NonEmptyTrimmed(pieces[1..])
  }

  /** `input.split(',').map(s => s.trim()).filter(s => s.length > 0)` */
  function CommaPieces(s: string): (r: seq<string>)
    ensures forall i :: 0 <= i < |r| ==> r[i] != "" && Trimmed(r[i]) && ',' !in r[i]
  {
    var parts := Split(s, ',');
    SplitPiecesCommaFree(s, ',');
    NonEmptyTrimmedCommaFree(parts);
    NonEmptyTrimmed(parts)
  }

  lemma {:induction false} SplitPiecesCommaFree(s: string, c: char)
    ensures forall i :: 0 <= i < |Split(s, c)| ==> c !in Split(s, c)[i]
    decreases |s|
  {
    var i := FirstIndex(s, c);
    if i < |s| {
      SplitPiecesCommaFree(s[i + 1..], c);
      assert forall j :: 0 <= j < i ==> s[..i][j] == s[j];
    }
  }

  /** A slice holds no character its string lacks. */
  lemma SliceSub(s: string, c: char, i: nat, j: nat)
    requires c !in s && i <= j <= |s|
    ensures c !in s[i..j]
  {
  }

  lemma TrimSub(s: string, c: char)
    requires c !in s
    ensures c !in Trim(s)
  {
    var t := TrimStart(s);
    SliceSub(s, c, |s| - |t|, |s|);
    assert t == s[|s| - |t|..|s|];
    SliceSub(t, c, 0, |TrimEnd(t)|);
  }

  lemma {:induction false} NonEmptyTrimmedCommaFree(pieces: seq<string>)
    requires forall i :: 0 <= i < |pieces| ==> ',' !in pieces[i]
    ensures forall i :: 0 <= i < |NonEmptyTrimmed(pieces)| ==> ',' !in NonEmptyTrimmed(pieces)[i]
  {
    if |pieces| > 0 {
      TrimSub(pieces[0], ',');
      NonEmptyTrimmedCommaFree(pieces[1..]);
    }
  }

  /** `parseLabels`: a list keeps its non-empty strings, and throws on a
      `null` element, whose `length` cannot be read; a string that parses as a
      JSON array keeps that array's non-empty strings (the `typeof` test comes
      first, so `null` is skipped there); any other string is cut at commas,
      each piece trimmed, empty pieces dropped; anything else gives no labels.
      `parse` stands for `JSON.parse`, None for a string it rejects. */
  function ParseLabels(input: Json, parse: string -> Option<Json>): (r: Result<seq<string>>)
    ensures r.Failure? <==> input.JArr? && JNull in input.elems
    ensures r.Failure? ==> r.reason == Thrown
    ensures r.Ok? ==> forall i :: 0 <= i < |r.value| ==> r.value[i] != ""
    ensures r.Ok? && input.JArr? ==>
              |r.value| <= |input.elems| && forall i :: 0 <= i < |r.value| ==> JStr(r.value[i]) in input.elems
    ensures !input.JArr? && !input.JStr? ==> r == Ok([])
    ensures input.JStr? && !(parse(input.s).Some? && parse(input.s).value.JArr?) ==>
              r.Ok? && forall i :: 0 <= i < |r.value| ==> Trimmed(r.value[i]) && ',' !in r.value[i]
  {
    match input
    case JArr(xs) => if JNull in xs then Failure(Thrown) else Ok(NonEmptyStrings(xs))
    case JStr(s) =>
      var parsed := parse(s);
      if parsed.Some? && parsed.value.JArr? then Ok(NonEmptyStrings(parsed.value.elems)) else Ok(CommaPieces(s))
    case _ => Ok([])
  }

  /** A `null` in a list input throws; a `null` in a JSON array text is
      dropped like any other non-string. */
  lemma NullElements(s: string, parse: string -> Option<Json>)
    requires parse(s) == Some(JArr([JNull, JStr("a")]))
    ensures ParseLabels(JArr([JNull, JStr("a")]), parse) == Failure(Thrown)
    ensures ParseLabels(JStr(s), parse) == Ok(["a"])
  {
    var xs := [JNull, JStr("a")];
    assert xs[1..] == [JStr("a")] && xs[1..][1..] == [];
    assert NonEmptyStrings(xs[1..]) == ["a"] + NonEmptyStrings([]);
    assert NonEmptyStrings(xs) == [] + NonEmptyStrings(xs[1..]);
    assert NonEmptyStrings(xs) == ["a"];
    assert parse(s).value.elems == xs;
  }

  lemma TrimOfTrimmed(s: string)
    requires Trimmed(s)
    ensures Trim(s) == s
  {
  }

  lemma NonEmptyTrimmedPadded(names: seq<string>, pad: string)
    requires forall i :: 0 <= i < |pad| ==> IsSpace(pad[i])
    requires forall i :: 0 <= i < |names| ==> names[i] != "" && Trimmed(names[i])
    ensures NonEmptyTrimmed(PadTail(names, pad)) == names
  {
    var padded := PadTail(names, pad);
    forall i | 0 <= i < |padded| ensures Trim(padded[i]) == names[i] {
      if i == 0 {
        TrimOfTrimmed(names[0]);
      } else {
        TrimPadded(pad, names[i]);
      }
    }
    NonEmptyTrimmedOfTrims(padded, names);
  }

  lemma {:induction false} NonEmptyTrimmedOfTrims(pieces: seq<string>, names: seq<string>)
    requires |pieces| == |names|
    requires forall i :: 0 <= i < |names| ==> names[i] != "" && Trim(pieces[i]) == names[i]
    ensures NonEmptyTrimmed(pieces) == names
  {
    if |pieces| > 0 {
      NonEmptyTrimmedOfTrims(pieces[1..], names[1..]);
    }
  }

  /** Labels written as a comma list, with any white space after each comma,
      parse back to exactly those labels, whenever `JSON.parse` does not read
      the text as an array. */
  lemma CommaListRoundTrip(names: seq<string>, pad: string, parse: string -> Option<Json>)
    requires |names| >= 1
    requires forall i :: 0 <= i < |pad| ==> IsSpace(pad[i])
    requires forall i :: 0 <= i < |names| ==> names[i] != "" && Trimmed(names[i]) && ',' !in names[i]
    requires var text := Join(names, [','] + pad);
             !(parse(text).Some? && parse(text).value.JArr?)
    ensures ParseLabels(JStr(Join(names, [','] + pad)), parse) == Ok(names)
  {
    JoinPadded(names, ',', pad);
    var padded := PadTail(names, pad);
    assert forall i :: 0 <= i < |pad| ==> pad[i] != ',';
    forall i | 0 <= i < |padded| ensures ',' !in padded[i] {
      if i > 0 {
        assert padded[i] == pad + names[i];
      }
    }
    SplitJoin(padded, ',');
    NonEmptyTrimmedPadded(names, pad);
  }

  /** A string holding a JSON array of strings gives that array's non-empty
      strings in order, duplicates included. */
  lemma JsonArrayText(s: string, names: seq<string>, parse: string -> Option<Json>)
    requires parse(s) == Some(JArr(AsJson(names)))
    requires forall i :: 0 <= i < |names| ==> names[i] != ""
    ensures ParseLabels(JStr(s), parse) == Ok(names)
  {
    NonEmptyStringsKeepsAll(names);
  }

  /** A list input keeps its non-empty strings untrimmed, in order, duplicates included. */
  lemma ListInput(names: seq<string>, parse: string -> Option<Json>)
    requires forall i :: 0 <= i < |names| ==> names[i] != ""
    ensures ParseLabels(JArr(AsJson(names)), parse) == Ok(names)
  {
    assert JNull !in AsJson(names);
    NonEmptyStringsKeepsAll(names);
  }

  // ---------------------------------------------------------------------------
  // Label objects

  /** `{labelName, labelType: 'User'}` */
  function UserLabel(name: string): Json
  {
    JObj(map["labelName" := JStr(name), "labelType" := JStr("User")])
  }

  function UserLabels(names: seq<string>): (r: seq<Json>)
    ensures |r| == |names| && forall i :: 0 <= i < |names| ==> r[i] == UserLabel(names[i])
  {
    seq(|names|, i requires 0 <= i < |names| => UserLabel(names[i]))
  }

  /** `label.labelName`: None is `undefined`; reading it off `null` throws. */
  function LabelName(lab: Json): Result<Option<Json>>
  {
    match lab
    case JNull => Failure("TypeError: cannot read labelName of null")
    case JObj(m) => Ok(Get(m, "labelName"))
    case _ => Ok(None)
  }

  predicate Readable(labels: seq<Json>)
  {
    forall i :: 0 <= i < |labels| ==> labels[i] != JNull
  }

  /** `labels.map(label => label.labelName)`, for labels with no `null`. */
  function Names(labels: seq<Json>): (r: seq<Option<Json>>)
    requires Readable(labels)
    ensures |r| == |labels|
    ensures forall i :: 0 <= i < |labels| ==> Ok(r[i]) == LabelName(labels[i])
  {
    seq(|labels|, i requires 0 <= i < |labels| => LabelName(labels[i]).value)
  }

  /** `(props.labels as IDataObject[]) || []`, with the TypeError that the
      following `map`/`filter` raises for a truthy non-array or a `null` label. */
  function CurrentLabels(props: Props): (r: Result<seq<Json>>)
    ensures !TruthyAt(props, "labels") ==> r == Ok([])
    ensures r.Ok? && TruthyAt(props, "labels") ==> props["labels"] == JArr(r.value)
    ensures r.Ok? ==> Readable(r.value)
  {
    if !TruthyAt(props, "labels") then Ok([])
    else match props["labels"]
      case JArr(ls) => if Readable(ls) then Ok(ls) else Failure("TypeError: cannot read labelName of null")
      case _ => Failure("TypeError: labels is not an array")
  }

  /** The parsed names whose string is not already a label name, as user labels. */
  function NewLabels(existing: seq<Option<Json>>, names: seq<string>): (r: seq<Json>)
    ensures |r| <= |names|
  {
    if |names| == 0 then []
    else (if Some(JStr(names[0])) in existing then [] else [UserLabel(names[0])]) + NewLabels(existing, names[1..])
  }

  /** Add mode: the current labels in order, then a user label for every
      parsed name not already present. */
  function AddLabels(current: seq<Json>, names: seq<string>): (r: seq<Json>)
    requires Readable(current)
    ensures |r| >= |current| && r[..|current|] == current
  {
    current + NewLabels(Names(current), names)
  }

  /** Every parsed name is a label name of the result, and what was appended
      are user labels of parsed names that were missing. */
  lemma {:induction false} AddLabelsCovers(current: seq<Json>, names: seq<string>)
    requires Readable(current)
    ensures forall n :: n in names ==> exists i :: 0 <= i < |AddLabels(current, names)| && LabelName(AddLabels(current, names)[i]) == Ok(Some(JStr(n)))
    ensures forall j :: |current| <= j < |AddLabels(current, names)| ==>
              exists n :: n in names && Some(JStr(n)) !in Names(current) && AddLabels(current, names)[j] == UserLabel(n)
  {
    var ex := Names(current);
    var r := AddLabels(current, names);
    forall n | n in names
      ensures exists i :: 0 <= i < |r| && LabelName(r[i]) == Ok(Some(JStr(n)))
    {
      if Some(JStr(n)) in ex {
        var i :| 0 <= i < |ex| && ex[i] == Some(JStr(n));
        assert r[i] == current[i];
      } else {
        NewLabelsHas(ex, names, n);
        var k :| 0 <= k < |NewLabels(ex, names)| && NewLabels(ex, names)[k] == UserLabel(n);
        assert r[|current| + k] == UserLabel(n);
        assert LabelName(UserLabel(n)) == Ok(Some(JStr(n)));
      }
    }
    forall j | |current| <= j < |r|
      ensures exists n :: n in names && Some(JStr(n)) !in ex && r[j] == UserLabel(n)
    {
      NewLabelsFrom(ex, names, j - |current|);
    }
  }

  lemma {:induction false} NewLabelsHas(existing: seq<Option<Json>>, names: seq<string>, n: string)
    requires n in names && Some(JStr(n)) !in existing
    ensures UserLabel(n) in NewLabels(existing, names)
  {
    if names[0] != n {
      NewLabelsHas(existing, names[1..], n);
    }
  }

  lemma {:induction false} NewLabelsFrom(existing: seq<Option<Json>>, names: seq<string>, k: int)
    requires 0 <= k < |NewLabels(existing, names)|
    ensures exists n :: n in names && Some(JStr(n)) !in existing && NewLabels(existing, names)[k] == UserLabel(n)
  {
    var head := if Some(JStr(names[0])) in existing then [] else [UserLabel(names[0])];
    if k < |head| {
      assert NewLabels(existing, names)[k] == UserLabel(names[0]);
    } else {
      NewLabelsFrom(existing, names[1..], k - |head|);
      var n :| n in names[1..] && Some(JStr(n)) !in existing && NewLabels(existing, names[1..])[k - |head|] == UserLabel(n);
      assert n in names;
    }
  }

  /** Adding names that are all present already changes nothing. */
  lemma {:induction false} AddPresentNames(current: seq<Json>, names: seq<string>)
    requires Readable(current)
    requires forall i :: 0 <= i < |names| ==> Some(JStr(names[i])) in Names(current)
    ensures AddLabels(current, names) == current
  {
    NewLabelsNone(Names(current), names);
  }

  lemma {:induction false} NewLabelsNone(existing: seq<Option<Json>>, names: seq<string>)
    requires forall i :: 0 <= i < |names| ==> Some(JStr(names[i])) in existing
    ensures NewLabels(existing, names) == []
  {
    if |names| > 0 {
      NewLabelsNone(existing, names[1..]);
    }
  }

  /** The label is kept unless its name is one of the strings to remove. */
  predicate Kept(lab: Json, remove: seq<string>)
    requires lab != JNull
  {
    !(exists n :: n in remove && LabelName(lab) == Ok(Some(JStr(n))))
  }

  /** `currentLabels.filter(label => !labelsToRemove.includes(label.labelName))` */
  function RemoveLabels(current: seq<Json>, remove: seq<string>): (r: seq<Json>)
    requires Readable(current)
    ensures |r| <= |current|
    ensures forall i :: 0 <= i < |r| ==> r[i] in current && Kept(r[i], remove)
  {
    if |current| == 0 then []
    else (if Kept(current[0], remove) then [current[0]] else []) + RemoveLabels(current[1..], remove)
  }

  /** Removing keeps exactly the labels not named, in order: the result is
      the current list when no label is named, and it has as many fewer
      elements as there are named labels. */
  function NamedCount(current: seq<Json>, remove: seq<string>): nat
    requires Readable(current)
  {
    if |current| == 0 then 0
    else (if Kept(current[0], remove) then 0 else 1) + NamedCount(current[1..], remove)
  }

  lemma {:induction false} RemoveLabelsCount(current: seq<Json>, remove: seq<string>)
    requires Readable(current)
    ensures |RemoveLabels(current, remove)| == |current| - NamedCount(current, remove)
    ensures NamedCount(current, remove) == 0 ==> RemoveLabels(current, remove) == current
  {
    if |current| > 0 {
      RemoveLabelsCount(current[1..], remove);
    }
  }

  lemma {:induction false} RemoveLabelsAppend(xs: seq<Json>, ys: seq<Json>, remove: seq<string>)
    requires Readable(xs) && Readable(ys)
    ensures Readable(xs + ys)
    ensures RemoveLabels(xs + ys, remove) == RemoveLabels(xs, remove) + RemoveLabels(ys, remove)
  {
    assert Readable(xs + ys) by {
      forall i | 0 <= i < |xs + ys|
        ensures (xs + ys)[i] != JNull
      {
        if i < |xs| {
          assert (xs + ys)[i] == xs[i];
        } else {
          assert (xs + ys)[i] == ys[i - |xs|];
        }
      }
    }
    if |xs| > 0 {
      var head := if Kept(xs[0], remove) then [xs[0]] else [];
      assert (xs + ys)[0] == xs[0];
      assert (xs + ys)[1..] == xs[1..] + ys;
      assert Readable(xs[1..]);
      RemoveLabelsAppend(xs[1..], ys, remove);
      assert RemoveLabels(xs + ys, remove) == head + RemoveLabels(xs[1..] + ys, remove);
      assert RemoveLabels(xs, remove) == head + RemoveLabels(xs[1..], remove);
      assert head + (RemoveLabels(xs[1..], remove) + RemoveLabels(ys, remove))
          == (head + RemoveLabels(xs[1..], remove)) + RemoveLabels(ys, remove);
    } else {
      assert xs + ys == ys;
    }
  }

  lemma {:induction false} RemoveAllNew(existing: seq<Option<Json>>, names: seq<string>)
    ensures Readable(NewLabels(existing, names))
    ensures RemoveLabels(NewLabels(existing, names), names) == []
  {
    if |names| > 0 {
      var head := if Some(JStr(names[0])) in existing then [] else [UserLabel(names[0])];
      RemoveAllNew(existing, names[1..]);
      RemoveMore(NewLabels(existing, names[1..]), names[1..], names);
      if head != [] {
        assert LabelName(UserLabel(names[0])) == Ok(Some(JStr(names[0])));
        assert !Kept(UserLabel(names[0]), names);
      }
      RemoveLabelsAppend(head, NewLabels(existing, names[1..]), names);
    }
  }

  lemma {:induction false} RemoveMore(ls: seq<Json>, fewer: seq<string>, more: seq<string>)
    requires Readable(ls)
    requires forall n :: n in fewer ==> n in more
    requires RemoveLabels(ls, fewer) == []
    ensures RemoveLabels(ls, more) == []
  {
    if |ls| > 0 {
      assert !Kept(ls[0], fewer);
      RemoveMore(ls[1..], fewer, more);
    }
  }

  /** Removing the names just added undoes the addition. */
  lemma RemoveUndoesAdd(current: seq<Json>, names: seq<string>)
    requires Readable(current)
    ensures Readable(AddLabels(current, names))
    ensures RemoveLabels(AddLabels(current, names), names) == RemoveLabels(current, names)
  {
    RemoveAllNew(Names(current), names);
    RemoveLabelsAppend(current, NewLabels(Names(current), names), names);
  }
}

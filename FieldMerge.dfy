/** The incident PUT bodies: the additional-field merge shared by create and
    update (`applyAdditionalFieldsToProperties`), and the create, update,
    add-label and remove-label callbacks built on it. A key present in the
    additional fields decides its field even when its value is falsy; an
    absent key is omitted on create and inherited from the fetched incident
    on update. */
module IncidentFields {
  import opened JsonValues
  import opened Text
  import opened HttpRequest
  import opened ODataFilter
  import opened Labels
  import opened RequestBodies

  /** What one step of the merge does to one output field. */
  datatype Write = Keep | Put(v: Json)

  function Apply(m: Props, k: string, w: Write): (r: Props)
    ensures w.Put? ==> r == m[k := w.v]
    ensures w.Keep? ==> r == m
  {
    match w
    case Keep => m
    case Put(v) => m[k := v]
  }

  // ---------------------------------------------------------------------------
  // One rule per output field

  /** `description` and `classificationComment`: the additional field when
      present, else on update the current value when truthy. */
  function CopyRule(af: Props, cur: Option<Props>, k: string): Write
  {
    if k in af then Put(af[k])
    else if cur.Some? && TruthyAt(cur.value, k) then Put(cur.value[k])
    else Keep
  }

  /** The writes to `classification` and `classificationReason`. */
  datatype ClassWrites = ClassWrites(classification: Write, reason: Write)

  /** `classificationAndReason`: a string with a colon gives the text before
      the first colon and the text between the first and the second; a string
      without one gives only the classification. `includes` and `split` throw
      on anything else but an array, and `split` throws on an array holding
      `":"` (which `includes` finds); another array is stored as it is. On
      update, an absent field inherits a truthy current classification and
      a truthy current reason. */
  function ClassificationRule(af: Props, cur: Option<Props>): Result<ClassWrites>
  {
    if "classificationAndReason" in af then
      match af["classificationAndReason"]
      case JStr(v) =>
        if ':' in v then
          var parts := Split(v, ':');
          Ok(ClassWrites(Put(JStr(parts[0])), Put(JStr(parts[1]))))
        else Ok(ClassWrites(Put(JStr(v)), Keep))
      case JArr(xs) =>
        if JStr(":") in xs then Failure(Thrown) else Ok(ClassWrites(Put(JArr(xs)), Keep))
      case _ => Failure(Thrown)
    else if cur.Some? && TruthyAt(cur.value, "classification") then
      Ok(ClassWrites(Put(cur.value["classification"]),
                     if TruthyAt(cur.value, "classificationReason") then Put(cur.value["classificationReason"]) else Keep))
    else Ok(ClassWrites(Keep, Keep))
  }

  /** A date field: a present truthy value is normalised and a present falsy
      one becomes `null`; on update an absent field inherits a truthy current
      value, normalised. Normalising a value that is not a string throws. */
  function DateRule(af: Props, cur: Option<Props>, k: string): Result<Write>
  {
    if k in af then
      if !Truthy(af[k]) then Ok(Put(JNull))
      else if af[k].JStr? then Ok(Put(JStr(NormalizeDate(af[k].s))))
      else Failure(Thrown)
    else if cur.Some? && TruthyAt(cur.value, k) then
      if cur.value[k].JStr? then Ok(Put(JStr(NormalizeDate(cur.value[k].s)))) else Failure(Thrown)
    else Ok(Keep)
  }

  /** The owner object built from a user principal name. */
  function OwnerObject(upn: Json): Json
  {
    JObj(map["email" := upn, "assignedTo" := upn, "ownerType" := JStr("User")])
  }

  /** `owner`: a present truthy value becomes an owner object, a present
      falsy one `null`; on update an absent owner inherits a truthy current one. */
  function OwnerRule(af: Props, cur: Option<Props>): Write
  {
    if "owner" in af then (if Truthy(af["owner"]) then Put(OwnerObject(af["owner"])) else Put(JNull))
    else if cur.Some? && TruthyAt(cur.value, "owner") then Put(cur.value["owner"])
    else Keep
  }

  /** `additionalFields.labelMode || 'add'` */
  function LabelMode(af: Props): Json
  {
    if TruthyAt(af, "labelMode") then af["labelMode"] else JStr("add")
  }

  /** `labels`: on create or in `replace` mode the parsed names as user
      labels; on update in `add` mode the current labels followed by the new
      names; in any other mode on update nothing. On update an absent field
      inherits truthy current labels. */
  function LabelsRule(af: Props, cur: Option<Props>, parse: string -> Option<Json>): Result<Write>
  {
    if "labels" in af then
      var mode := LabelMode(af);
      var parsed := ParseLabels(af["labels"], parse);
      if parsed.Failure? then Failure(Thrown)
      else if mode == JStr("replace") || cur.None? then Ok(Put(JArr(UserLabels(parsed.value))))
      else if mode == JStr("add") then
        var current := CurrentLabels(cur.value);
        if current.Failure? then Failure(Thrown) else Ok(Put(JArr(AddLabels(current.value, parsed.value))))
      else Ok(Keep)
    else if cur.Some? && TruthyAt(cur.value, "labels") then Ok(Put(cur.value["labels"]))
    else Ok(Keep)
  }

  // ---------------------------------------------------------------------------
  // The merge

  /** The write every rule makes, once none of them throws. */
  datatype Plan = Plan(description: Write, classification: Write, reason: Write, comment: Write,
                       first: Write, last: Write, owner: Write, labels: Write)

  /** The rules' writes, or the TypeError one of them throws. */
  function PlanOf(af: Props, cur: Option<Props>, parse: string -> Option<Json>): Result<Plan>
  {
    var c := ClassificationRule(af, cur);
    var first := DateRule(af, cur, "firstActivityTimeUtc");
    var last := DateRule(af, cur, "lastActivityTimeUtc");
    var labels := LabelsRule(af, cur, parse);
    if c.Failure? || first.Failure? || last.Failure? || labels.Failure? then Failure(Thrown)
    else Ok(Plan(CopyRule(af, cur, "description"), c.value.classification, c.value.reason,
                 CopyRule(af, cur, "classificationComment"), first.value, last.value, OwnerRule(af, cur), labels.value))
  }

  /** The first four assignments of the code: description, classification,
      reason, comment. */
  function ApplyText(m: Props, description: Write, c: ClassWrites, comment: Write): Props
  {
    Apply(Apply(Apply(Apply(m, "description", description), "classification", c.classification),
                "classificationReason", c.reason), "classificationComment", comment)
  }

  /** The last four: the two dates, owner, labels. */
  function ApplyRest(m: Props, first: Write, last: Write, owner: Write, labels: Write): Props
  {
    Apply(Apply(Apply(Apply(m, "firstActivityTimeUtc", first), "lastActivityTimeUtc", last), "owner", owner), "labels", labels)
  }

  function ApplyPlan(m: Props, p: Plan): Props
  {
    ApplyRest(ApplyText(m, p.description, ClassWrites(p.classification, p.reason), p.comment), p.first, p.last, p.owner, p.labels)
  }

  /** The fields of `properties` after the merge, or the TypeError it throws. */
  function Merged(af: Props, properties: Props, cur: Option<Props>, parse: string -> Option<Json>): Result<Props>
  {
    var plan := PlanOf(af, cur, parse);
    if plan.Failure? then Failure(plan.reason) else Ok(ApplyPlan(properties, plan.value))
  }

  /** The output keys the merge may write. */
  predicate Managed(k: string)
  {
    k == "description" || k == "classification" || k == "classificationReason" || k == "classificationComment"
    || k == "firstActivityTimeUtc" || k == "lastActivityTimeUtc" || k == "owner" || k == "labels"
  }

  /** The write a plan makes to key `k`. */
  function WriteAt(p: Plan, k: string): Write
  {
    if k == "description" then p.description
    else if k == "classification" then p.classification
    else if k == "classificationReason" then p.reason
    else if k == "classificationComment" then p.comment
    else if k == "firstActivityTimeUtc" then p.first
    else if k == "lastActivityTimeUtc" then p.last
    else if k == "owner" then p.owner
    else if k == "labels" then p.labels
    else Keep
  }

  lemma ApplyOther(m: Props, key: string, w: Write, k: string)
    ensures k != key ==> (k in Apply(m, key, w) <==> k in m)
    ensures k != key && k in m ==> Apply(m, key, w)[k] == m[k]
    ensures k == key && w.Put? ==> k in Apply(m, key, w) && Apply(m, key, w)[k] == w.v
    ensures k == key && w.Keep? ==> Apply(m, key, w) == m
  {
  }

  /** Key by key, a plan writes each managed key as its rule says, keeps the
      incoming field where the rule writes nothing, and leaves every other key
      alone: every assignment writes its own key. */
  lemma {:induction false} ApplyPlanAt(m: Props, p: Plan, k: string)
    ensures var r := ApplyPlan(m, p);
            match WriteAt(p, k)
            case Put(v) => k in r && r[k] == v
            case Keep => (k in r <==> k in m) && (k in m ==> r[k] == m[k])
    ensures !Managed(k) ==> WriteAt(p, k) == Keep
  {
    var p1 := Apply(m, "description", p.description);
    var p2 := Apply(p1, "classification", p.classification);
    var p3 := Apply(p2, "classificationReason", p.reason);
    var p4 := Apply(p3, "classificationComment", p.comment);
    var p5 := Apply(p4, "firstActivityTimeUtc", p.first);
    var p6 := Apply(p5, "lastActivityTimeUtc", p.last);
    var p7 := Apply(p6, "owner", p.owner);
    ApplyOther(p7, "labels", p.labels, k);
    ApplyOther(p6, "owner", p.owner, k);
    ApplyOther(p5, "lastActivityTimeUtc", p.last, k);
    ApplyOther(p4, "firstActivityTimeUtc", p.first, k);
    ApplyOther(p3, "classificationComment", p.comment, k);
    ApplyOther(p2, "classificationReason", p.reason, k);
    ApplyOther(p1, "classification", p.classification, k);
    ApplyOther(m, "description", p.description, k);
  }

  /** The merge, key by key, given that no rule throws. */
  lemma MergedAt(af: Props, properties: Props, cur: Option<Props>, parse: string -> Option<Json>, k: string)
    requires Merged(af, properties, cur, parse).Ok?
    ensures PlanOf(af, cur, parse).Ok?
    ensures var r := Merged(af, properties, cur, parse).value;
            match WriteAt(PlanOf(af, cur, parse).value, k)
            case Put(v) => k in r && r[k] == v
            case Keep => (k in r <==> k in properties) && (k in properties ==> r[k] == properties[k])
  {
    ApplyPlanAt(properties, PlanOf(af, cur, parse).value, k);
  }

  /** The first half of `applyAdditionalFieldsToProperties`. */
  method AssignTextFields(af: Props, properties: Props, current: Option<Props>) returns (r: Result<Props>)
    ensures ClassificationRule(af, current).Failure? ==> r == Failure(Thrown)
    ensures ClassificationRule(af, current).Ok? ==>
              r == Ok(ApplyText(properties, CopyRule(af, current, "description"), ClassificationRule(af, current).value,
                                CopyRule(af, current, "classificationComment")))
  {
    var isUpdate := current.Some?;
    var props := properties;
    if "description" in af {
      props := props["description" := af["description"]];
    } else if isUpdate && TruthyAt(current.value, "description") {
      props := props["description" := current.value["description"]];
    }
    ghost var before := props;
    if "classificationAndReason" in af {
      var value := af["classificationAndReason"];
      if value.JStr? {
        if ':' in value.s {
          var parts := Split(value.s, ':');
          props := props["classification" := JStr(parts[0])];
          props := props["classificationReason" := JStr(parts[1])];
        } else {
          props := props["classification" := value];
        }
      } else if value.JArr? && JStr(":") !in value.elems {
        props := props["classification" := value];
      } else {
        return Failure(Thrown);
      }
    } else if isUpdate && TruthyAt(current.value, "classification") {
      props := props["classification" := current.value["classification"]];
      if TruthyAt(current.value, "classificationReason") {
        props := props["classificationReason" := current.value["classificationReason"]];
      }
    }
    var c := ClassificationRule(af, current).value;
    assert props == Apply(Apply(before, "classification", c.classification), "classificationReason", c.reason);
    if "classificationComment" in af {
      props := props["classificationComment" := af["classificationComment"]];
    } else if isUpdate && TruthyAt(current.value, "classificationComment") {
      props := props["classificationComment" := current.value["classificationComment"]];
    }
    return Ok(props);
  }

  /** The second half of `applyAdditionalFieldsToProperties`. */
  method AssignOtherFields(af: Props, properties: Props, current: Option<Props>, parse: string -> Option<Json>)
    returns (r: Result<Props>)
    ensures var first := DateRule(af, current, "firstActivityTimeUtc");
            var last := DateRule(af, current, "lastActivityTimeUtc");
            var labels := LabelsRule(af, current, parse);
            if first.Failure? || last.Failure? || labels.Failure? then r == Failure(Thrown)
            else r == Ok(ApplyRest(properties, first.value, last.value, OwnerRule(af, current), labels.value))
  {
    var isUpdate := current.Some?;
    var props := properties;
    var first := DateRule(af, current, "firstActivityTimeUtc");
    var last := DateRule(af, current, "lastActivityTimeUtc");
    if first.Failure? || last.Failure? {
      return Failure(Thrown);
    }
    props := Apply(props, "firstActivityTimeUtc", first.value);
    props := Apply(props, "lastActivityTimeUtc", last.value);
    if "owner" in af {
      if Truthy(af["owner"]) {
        props := props["owner" := OwnerObject(af["owner"])];
      } else {
        props := props["owner" := JNull];
      }
    } else if isUpdate && TruthyAt(current.value, "owner") {
      props := props["owner" := current.value["owner"]];
    }
    ghost var before := props;
    if "labels" in af {
      var mode := LabelMode(af);
      var parsed := ParseLabels(af["labels"], parse);
      if parsed.Failure? {
        return Failure(Thrown);
      }
      if mode == JStr("replace") || !isUpdate {
        props := props["labels" := JArr(UserLabels(parsed.value))];
      } else if mode == JStr("add") {
        var labels := CurrentLabels(current.value);
        if labels.Failure? {
          return Failure(Thrown);
        }
        props := props["labels" := JArr(AddLabels(labels.value, parsed.value))];
      }
    } else if isUpdate && TruthyAt(current.value, "labels") {
      props := props["labels" := current.value["labels"]];
    }
    assert props == Apply(before, "labels", LabelsRule(af, current, parse).value);
    return Ok(props);
  }

  /** `applyAdditionalFieldsToProperties`: the fields of `properties` are
      assigned one by one; `current` is None on create. */
  method ApplyAdditionalFields(af: Props, properties: Props, current: Option<Props>, parse: string -> Option<Json>)
    returns (r: Result<Props>)
    ensures r == Merged(af, properties, current, parse)
  {
    var text := AssignTextFields(af, properties, current);
    if text.Failure? {
      return text;
    }
    r := AssignOtherFields(af, text.value, current, parse);
  }

  // ---------------------------------------------------------------------------
  // What the merge promises

  /** A present additional field decides its output field, falsy values
      included: copies for description and comment, `null` for a falsy owner
      or date, an owner object for a truthy owner, a normalised date for a
      date string. */
  lemma PresentKeyWins(af: Props, properties: Props, cur: Option<Props>, parse: string -> Option<Json>)
    requires Merged(af, properties, cur, parse).Ok?
    ensures var r := Merged(af, properties, cur, parse).value;
            ("description" in af ==> r["description"] == af["description"])
            && ("classificationComment" in af ==> r["classificationComment"] == af["classificationComment"])
            && ("owner" in af && !Truthy(af["owner"]) ==> r["owner"] == JNull)
            && ("owner" in af && Truthy(af["owner"]) ==> r["owner"] == OwnerObject(af["owner"]))
            && ("firstActivityTimeUtc" in af && !Truthy(af["firstActivityTimeUtc"]) ==> r["firstActivityTimeUtc"] == JNull)
            && ("firstActivityTimeUtc" in af && Truthy(af["firstActivityTimeUtc"]) ==>
                  af["firstActivityTimeUtc"].JStr? && r["firstActivityTimeUtc"] == JStr(NormalizeDate(af["firstActivityTimeUtc"].s)))
            && ("lastActivityTimeUtc" in af && !Truthy(af["lastActivityTimeUtc"]) ==> r["lastActivityTimeUtc"] == JNull)
            && ("lastActivityTimeUtc" in af && Truthy(af["lastActivityTimeUtc"]) ==>
                  af["lastActivityTimeUtc"].JStr? && r["lastActivityTimeUtc"] == JStr(NormalizeDate(af["lastActivityTimeUtc"].s)))
  {
    MergedAt(af, properties, cur, parse, "description");
    MergedAt(af, properties, cur, parse, "classificationComment");
    MergedAt(af, properties, cur, parse, "owner");
    MergedAt(af, properties, cur, parse, "firstActivityTimeUtc");
    MergedAt(af, properties, cur, parse, "lastActivityTimeUtc");
  }

  /** A truthy date that is not a string makes the merge throw. */
  lemma NonStringDateThrows(af: Props, properties: Props, cur: Option<Props>, parse: string -> Option<Json>, k: string)
    requires k == "firstActivityTimeUtc" || k == "lastActivityTimeUtc"
    requires k in af && Truthy(af[k]) && !af[k].JStr?
    ensures Merged(af, properties, cur, parse).Failure?
  {
  }

  /** On create, a managed field whose additional field is absent is not
      written: it stays as the base properties have it (absent for all of them
      in a create body). */
  lemma AbsentOmittedOnCreate(af: Props, properties: Props, parse: string -> Option<Json>, k: string)
    requires Merged(af, properties, None, parse).Ok?
    requires Managed(k) && k !in properties
    requires k != "classification" && k != "classificationReason" ==> k !in af
    requires k == "classification" || k == "classificationReason" ==> "classificationAndReason" !in af
    ensures k !in Merged(af, properties, None, parse).value
  {
    MergedAt(af, properties, None, parse, k);
  }

  /** On update, a managed field whose additional field is absent takes the
      current value when that is truthy (dates normalised again), and is not
      written when the current value is falsy or missing. */
  lemma AbsentInheritedOnUpdate(af: Props, properties: Props, cur: Props, parse: string -> Option<Json>, k: string)
    requires Merged(af, properties, Some(cur), parse).Ok?
    requires Managed(k) && k != "classificationReason"
    requires k != "classification" ==> k !in af
    requires k == "classification" ==> "classificationAndReason" !in af
    ensures var r := Merged(af, properties, Some(cur), parse).value;
            (TruthyAt(cur, k) && k != "firstActivityTimeUtc" && k != "lastActivityTimeUtc" ==> k in r && r[k] == cur[k])
            && (TruthyAt(cur, k) && (k == "firstActivityTimeUtc" || k == "lastActivityTimeUtc") ==>
                  cur[k].JStr? && k in r && r[k] == JStr(NormalizeDate(cur[k].s)))
            && (!TruthyAt(cur, k) ==> (k in r <==> k in properties))
  {
    MergedAt(af, properties, Some(cur), parse, k);
  }

  /** On update a reason is inherited only together with a truthy current
      classification, and only when it is truthy itself. */
  lemma ReasonInheritedOnUpdate(af: Props, properties: Props, cur: Props, parse: string -> Option<Json>)
    requires Merged(af, properties, Some(cur), parse).Ok?
    requires "classificationAndReason" !in af
    ensures var r := Merged(af, properties, Some(cur), parse).value;
            (TruthyAt(cur, "classification") && TruthyAt(cur, "classificationReason") ==>
               "classificationReason" in r && r["classificationReason"] == cur["classificationReason"])
            && (!(TruthyAt(cur, "classification") && TruthyAt(cur, "classificationReason")) ==>
               ("classificationReason" in r <==> "classificationReason" in properties))
  {
    MergedAt(af, properties, Some(cur), parse, "classificationReason");
  }

  /** `"C:R"` gives classification C and reason R, the text between the
      first colon and the second (or the end). */
  lemma ClassificationWithReason(af: Props, properties: Props, cur: Option<Props>, parse: string -> Option<Json>,
                                 c: string, reason: string, rest: seq<string>)
    requires ':' !in c && ':' !in reason && forall i :: 0 <= i < |rest| ==> ':' !in rest[i]
    requires af == af["classificationAndReason" := JStr(Join([c, reason] + rest, ":"))]
    requires Merged(af, properties, cur, parse).Ok?
    ensures var r := Merged(af, properties, cur, parse).value;
            r["classification"] == JStr(c) && r["classificationReason"] == JStr(reason)
  {
    ClassificationRuleWithReason(af, cur, c, reason, rest);
    MergedAt(af, properties, cur, parse, "classification");
    MergedAt(af, properties, cur, parse, "classificationReason");
  }

  lemma ClassificationRuleWithReason(af: Props, cur: Option<Props>, c: string, reason: string, rest: seq<string>)
    requires ':' !in c && ':' !in reason && forall i :: 0 <= i < |rest| ==> ':' !in rest[i]
    requires "classificationAndReason" in af && af["classificationAndReason"] == JStr(Join([c, reason] + rest, ":"))
    ensures ClassificationRule(af, cur) == Ok(ClassWrites(Put(JStr(c)), Put(JStr(reason))))
  {
    var parts := [c, reason] + rest;
    var v := Join(parts, ":");
    assert parts[1..] == [reason] + rest;
    assert v == c + ":" + Join([reason] + rest, ":");
    assert ':' in v by {
      assert v[|c|] == ':';
    }
    assert forall i :: 0 <= i < |parts| ==> ':' !in parts[i] by {
      forall i | 0 <= i < |parts|
        ensures ':' !in parts[i]
      {
        if i >= 2 {
          assert parts[i] == rest[i - 2];
        }
      }
    }
    SplitJoin(parts, ':');
    assert Split(v, ':') == parts;
  }

  /** A value without a colon sets only the classification: no reason is
      written, on create or on update. */
  lemma ClassificationWithoutReason(af: Props, properties: Props, cur: Option<Props>, parse: string -> Option<Json>, v: string)
    requires ':' !in v
    requires "classificationAndReason" in af && af["classificationAndReason"] == JStr(v)
    requires Merged(af, properties, cur, parse).Ok?
    ensures var r := Merged(af, properties, cur, parse).value;
            r["classification"] == JStr(v)
            && ("classificationReason" in r <==> "classificationReason" in properties)
  {
    MergedAt(af, properties, cur, parse, "classification");
    MergedAt(af, properties, cur, parse, "classificationReason");
  }

  /** On create, and in `replace` mode on update, the labels are the parsed
      names as user labels. */
  lemma LabelsReplaced(af: Props, properties: Props, cur: Option<Props>, parse: string -> Option<Json>)
    requires "labels" in af && (cur.None? || LabelMode(af) == JStr("replace"))
    requires Merged(af, properties, cur, parse).Ok?
    ensures ParseLabels(af["labels"], parse).Ok?
    ensures Merged(af, properties, cur, parse).value["labels"] == JArr(UserLabels(ParseLabels(af["labels"], parse).value))
  {
    MergedAt(af, properties, cur, parse, "labels");
  }

  /** On update in `add` mode (the default), the current labels come first,
      in order, then user labels for the parsed names not already present. */
  lemma LabelsAdded(af: Props, properties: Props, cur: Props, parse: string -> Option<Json>)
    requires "labels" in af && LabelMode(af) == JStr("add")
    requires Merged(af, properties, Some(cur), parse).Ok?
    ensures CurrentLabels(cur).Ok? && ParseLabels(af["labels"], parse).Ok?
    ensures Merged(af, properties, Some(cur), parse).value["labels"]
         == JArr(AddLabels(CurrentLabels(cur).value, ParseLabels(af["labels"], parse).value))
  {
    MergedAt(af, properties, Some(cur), parse, "labels");
  }

  /** Without `labelMode` the mode is `add`. */
  lemma DefaultLabelMode(af: Props)
    requires !TruthyAt(af, "labelMode")
    ensures LabelMode(af) == JStr("add")
  {
  }

  /** An unknown label mode on update leaves `labels` as it was. */
  lemma LabelsUnknownMode(af: Props, properties: Props, cur: Props, parse: string -> Option<Json>)
    requires "labels" in af && LabelMode(af) != JStr("add") && LabelMode(af) != JStr("replace")
    requires Merged(af, properties, Some(cur), parse).Ok?
    ensures var r := Merged(af, properties, Some(cur), parse).value;
            ("labels" in r <==> "labels" in properties) && ("labels" in properties ==> r["labels"] == properties["labels"])
  {
    MergedAt(af, properties, Some(cur), parse, "labels");
  }

  // ---------------------------------------------------------------------------
  // The incident callbacks

  /** `getIncident`'s answer: the `properties` object (None when missing,
      where reading a field of it throws) and the `etag` (None when undefined). */
  datatype FetchedIncident = FetchedIncident(properties: Option<Props>, etag: Option<Json>)

  /** `body.etag = currentIncident.etag` unless `forceUpdate`. */
  function WithEtag(body: Props, forceUpdate: bool, etag: Option<Json>): Props
  {
    if forceUpdate then body else PutOpt(body, "etag", etag)
  }

  /** The etag goes into the body exactly when the update is not forced and
      the fetched incident has one; nothing else changes. */
  lemma EtagRule(body: Props, forceUpdate: bool, etag: Option<Json>)
    requires "etag" !in body
    ensures "etag" in WithEtag(body, forceUpdate, etag) <==> !forceUpdate && etag.Some?
    ensures "etag" in WithEtag(body, forceUpdate, etag) ==> WithEtag(body, forceUpdate, etag)["etag"] == etag.value
    ensures WithEtag(body, forceUpdate, etag) - {"etag"} == body
  {
  }

  /** The properties `createIncident` starts from. */
  function CreateBase(title: Json, severity: Json, status: Json): Props
  {
    map["title" := title, "severity" := severity, "status" := status]
  }

  /** What `createIncident` sends, or the TypeError it throws: only
      `properties`, merged over the custom properties. */
  function CreateRequestBody(title: Json, severity: Json, status: Json, af: Props,
                             parse: string -> Option<Json>, custom: Props): Result<Props>
  {
    var merged := Merged(af, CreateBase(title, severity, status), None, parse);
    if merged.Failure? then Failure(merged.reason)
    else Ok(MergedBody(Some(map["properties" := JObj(merged.value)]), custom))
  }

  /** `createIncident`. */
  method CreateIncident(opts: RequestOptions, title: Json, severity: Json, status: Json, af: Props,
                        parse: string -> Option<Json>, objectId: Option<string>, uuid: string, custom: Props)
    returns (r: Result<Props>)
    modifies opts
    ensures r == CreateRequestBody(title, severity, status, af, parse, custom)
    ensures r.Ok? ==> opts.body == Some(r.value) && opts.url == old(opts.url) + "/" + IdSegment(objectId, uuid)
    ensures r.Failure? ==> opts.body == old(opts.body) && opts.url == old(opts.url)
    ensures opts.qs == old(opts.qs)
  {
    var properties := CreateBase(title, severity, status);
    var merged := ApplyAdditionalFields(af, properties, None, parse);
    if merged.Failure? {
      return Failure(merged.reason);
    }
    opts.body := Some(map["properties" := JObj(merged.value)]);
    ApplyTransformations(opts, objectId, uuid, custom);
    r := Ok(opts.body.value);
  }

  /** A create body holds `properties` only, with no etag; without
      additional fields its properties are the custom ones overridden by title,
      severity and status. */
  lemma CreateBodyShape(title: Json, severity: Json, status: Json, af: Props, parse: string -> Option<Json>, custom: Props)
    requires CreateRequestBody(title, severity, status, af, parse, custom).Ok?
    ensures CreateRequestBody(title, severity, status, af, parse, custom).value.Keys == {"properties"}
    ensures af == map[] ==>
              CreateRequestBody(title, severity, status, af, parse, custom).value["properties"]
              == JObj(custom + CreateBase(title, severity, status))
  {
    var merged := Merged(af, CreateBase(title, severity, status), None, parse);
    if af == map[] {
      assert merged.value == CreateBase(title, severity, status);
    }
  }

  /** `'k' in additionalFields ? additionalFields.k : currentProperties.k` */
  function Chosen(af: Props, cur: Props, k: string): (r: Option<Json>)
    ensures k in af ==> r == Some(af[k])
    ensures k !in af ==> r == Get(cur, k)
  {
    if k in af then Some(af[k]) else Get(cur, k)
  }

  /** The properties `updateIncident` starts from. */
  function UpdateBase(af: Props, cur: Props): Props
  {
    PutOpt(PutOpt(PutOpt(map[], "title", Chosen(af, cur, "title")), "severity", Chosen(af, cur, "severity")),
           "status", Chosen(af, cur, "status"))
  }

  /** The base keys whose chosen value is `undefined`. The object still owns
      them, so spreading it over the custom properties overwrites theirs with
      `undefined`, and the key is not sent at all. */
  function HiddenKeys(af: Props, cur: Props): set<string>
  {
    (if Chosen(af, cur, "title").None? then {"title"} else {})
    + (if Chosen(af, cur, "severity").None? then {"severity"} else {})
    + (if Chosen(af, cur, "status").None? then {"status"} else {})
  }

  /** What `updateIncident` sends, or the TypeError it throws. */
  function UpdateRequestBody(forceUpdate: bool, fetched: FetchedIncident, af: Props,
                             parse: string -> Option<Json>, custom: Props): Result<Props>
  {
    if fetched.properties.None? then Failure(Thrown)
    else
      var cur := fetched.properties.value;
      var merged := Merged(af, UpdateBase(af, cur), Some(cur), parse);
      if merged.Failure? then Failure(merged.reason)
      else Ok(MergedBody(Some(WithEtag(map["properties" := JObj(merged.value)], forceUpdate, fetched.etag)),
                         custom - HiddenKeys(af, cur)))
  }

  /** The first three assignments of `updateIncident`: each of title,
      severity and status from the user's fields, else from the current
      incident. `properties` holds the keys with a value, `ownUndefined` the
      keys the object owns with the value `undefined`. */
  method BuildUpdateBase(af: Props, cur: Props) returns (properties: Props, ownUndefined: set<string>)
    ensures properties == UpdateBase(af, cur)
    ensures ownUndefined == HiddenKeys(af, cur)
  {
    properties := map[];
    var title := if "title" in af then Some(af["title"]) else Get(cur, "title");
    properties := PutOpt(properties, "title", title);
    ownUndefined := if title.None? then {"title"} else {};
    var severity := if "severity" in af then Some(af["severity"]) else Get(cur, "severity");
    properties := PutOpt(properties, "severity", severity);
    ownUndefined := ownUndefined + if severity.None? then {"severity"} else {};
    var status := if "status" in af then Some(af["status"]) else Get(cur, "status");
    properties := PutOpt(properties, "status", status);
    ownUndefined := ownUndefined + if status.None? then {"status"} else {};
    assert title == Chosen(af, cur, "title") && severity == Chosen(af, cur, "severity")
      && status == Chosen(af, cur, "status");
  }

  /** `updateIncident`: the etag rule, the id appended to the URL, then
      `mergeProperties`. */
  method UpdateIncident(opts: RequestOptions, incidentId: string, forceUpdate: bool, fetched: FetchedIncident,
                        af: Props, parse: string -> Option<Json>, custom: Props)
    returns (r: Result<Props>)
    modifies opts
    ensures r == UpdateRequestBody(forceUpdate, fetched, af, parse, custom)
    ensures r.Ok? ==> opts.body == Some(r.value) && opts.url == old(opts.url) + "/" + incidentId
    ensures r.Failure? ==> opts.body == old(opts.body) && opts.url == old(opts.url)
    ensures opts.qs == old(opts.qs)
  {
    if fetched.properties.None? {
      return Failure(Thrown);
    }
    var cur := fetched.properties.value;
    var properties, ownUndefined := BuildUpdateBase(af, cur);
    var merged := ApplyAdditionalFields(af, properties, Some(cur), parse);
    if merged.Failure? {
      return Failure(merged.reason);
    }
    var body := map["properties" := JObj(merged.value)];
    if !forceUpdate {
      body := PutOpt(body, "etag", fetched.etag);
    }
    opts.body := Some(body);
    opts.url := opts.url + "/" + incidentId;
    // an own `undefined` key spreads over the custom property of that name
    MergeProperties(opts, custom - ownUndefined);
    r := Ok(opts.body.value);
  }

  /** `m[key] = v` with `v` possibly undefined leaves every other key alone. */
  lemma PutOptOther(m: Props, key: string, v: Option<Json>, k: string)
    requires k != key
    ensures k in PutOpt(m, key, v) <==> k in m
    ensures k in m ==> PutOpt(m, key, v)[k] == m[k]
  {
  }

  /** The update base holds the chosen title, severity and status. */
  lemma UpdateBaseAt(af: Props, cur: Props, k: string)
    requires k == "title" || k == "severity" || k == "status"
    ensures k in UpdateBase(af, cur) <==> Chosen(af, cur, k).Some?
    ensures k in UpdateBase(af, cur) ==> UpdateBase(af, cur)[k] == Chosen(af, cur, k).value
  {
    var p1 := PutOpt(map[], "title", Chosen(af, cur, "title"));
    var p2 := PutOpt(p1, "severity", Chosen(af, cur, "severity"));
    if k == "title" {
      PutOptOther(p1, "severity", Chosen(af, cur, "severity"), k);
      PutOptOther(p2, "status", Chosen(af, cur, "status"), k);
    } else if k == "severity" {
      PutOptOther(p2, "status", Chosen(af, cur, "status"), k);
    }
  }

  /** A body that went through `mergeProperties` sends, as `properties`, the
      custom properties overridden by its own object-valued `properties`. */
  lemma MergedBodyOfObject(body: Props, own: Props, custom: Props)
    requires "properties" in body && body["properties"] == JObj(own)
    ensures MergedBody(Some(body), custom) == body["properties" := JObj(custom + own)]
  {
    assert OwnProperties(body) == own;
  }

  /** The fields additional-field merging does not manage survive it. */
  lemma UpdateMergedAt(af: Props, cur: Props, parse: string -> Option<Json>, k: string)
    requires k == "title" || k == "severity" || k == "status"
    requires Merged(af, UpdateBase(af, cur), Some(cur), parse).Ok?
    ensures var merged := Merged(af, UpdateBase(af, cur), Some(cur), parse).value;
      (k in merged <==> Chosen(af, cur, k).Some?)
      && (Chosen(af, cur, k).Some? ==> merged[k] == Chosen(af, cur, k).value)
  {
    var base := UpdateBase(af, cur);
    UpdateBaseAt(af, cur, k);
    MergedAt(af, base, Some(cur), parse, k);
  }

  /** Title, severity and status come from the additional fields when the key
      is present, otherwise from the current incident; the etag is sent exactly
      when the update is not forced. */
  lemma UpdateBodyShape(forceUpdate: bool, fetched: FetchedIncident, af: Props, parse: string -> Option<Json>,
                        custom: Props, k: string)
    requires k == "title" || k == "severity" || k == "status"
    requires UpdateRequestBody(forceUpdate, fetched, af, parse, custom).Ok?
    ensures fetched.properties.Some?
    ensures var body := UpdateRequestBody(forceUpdate, fetched, af, parse, custom).value;
            body["properties"].JObj?
            && var sent := body["properties"].fields;
               (Chosen(af, fetched.properties.value, k).Some? ==> k in sent && sent[k] == Chosen(af, fetched.properties.value, k).value)
               // an undefined choice is not sent, whatever the custom properties hold
               && (Chosen(af, fetched.properties.value, k).None? ==> k !in sent)
               && ("etag" in body <==> !forceUpdate && fetched.etag.Some?)
               && ("etag" in body ==> body["etag"] == fetched.etag.value)
  {
    var cur := fetched.properties.value;
    var base := UpdateBase(af, cur);
    UpdateMergedAt(af, cur, parse, k);
    var merged := Merged(af, base, Some(cur), parse).value;
    var withEtag := WithEtag(map["properties" := JObj(merged)], forceUpdate, fetched.etag);
    EtagRule(map["properties" := JObj(merged)], forceUpdate, fetched.etag);
    assert "properties" in withEtag && withEtag["properties"] == JObj(merged);
    var visible := custom - HiddenKeys(af, cur);
    MergedBodyOfObject(withEtag, merged, visible);
    assert UpdateRequestBody(forceUpdate, fetched, af, parse, custom).value == withEtag["properties" := JObj(visible + merged)];
  }

  // ---------------------------------------------------------------------------
  // Label operations

  /** The properties both label operations send besides the classification
      and the dates: the current title, severity, status, description and
      owner, and the new label list. */
  function LabelBase(cur: Props, labels: seq<Json>): Props
  {
    PutOpt(PutOpt(PutOpt(PutOpt(PutOpt(map[], "title", Get(cur, "title")), "severity", Get(cur, "severity")),
      "status", Get(cur, "status")), "description", Get(cur, "description")), "owner", Get(cur, "owner"))
    ["labels" := JArr(labels)]
  }

  /** A truthy current classification is carried with its comment (even an
      undefined one) and with its reason when that is truthy. */
  function WithClassification(props: Props, cur: Props): Props
  {
    if !TruthyAt(cur, "classification") then props
    else
      var p := PutOpt(props["classification" := cur["classification"]], "classificationComment", Get(cur, "classificationComment"));
      if TruthyAt(cur, "classificationReason") then p["classificationReason" := cur["classificationReason"]] else p
  }

  /** The properties a label operation sends, or the TypeError of a date
      that is not a string. */
  function LabelOpProps(cur: Props, labels: seq<Json>): Result<Props>
  {
    var first := DateRule(map[], Some(cur), "firstActivityTimeUtc");
    var last := DateRule(map[], Some(cur), "lastActivityTimeUtc");
    if first.Failure? || last.Failure? then Failure(Thrown)
    else Ok(Apply(Apply(WithClassification(LabelBase(cur, labels), cur), "firstActivityTimeUtc", first.value),
                  "lastActivityTimeUtc", last.value))
  }

  /** The body of a label operation, from the new label list. */
  function LabelOpBody(cur: Props, labels: seq<Json>, forceUpdate: bool, etag: Option<Json>): Result<Props>
  {
    var props := LabelOpProps(cur, labels);
    if props.Failure? then Failure(props.reason)
    else Ok(WithEtag(map["properties" := JObj(props.value)], forceUpdate, etag))
  }

  /** What `addLabelsToIncident` sends, or the TypeError it throws. */
  function AddLabelsRequestBody(forceUpdate: bool, fetched: FetchedIncident, input: Json, parse: string -> Option<Json>): Result<Props>
  {
    if fetched.properties.None? then Failure(Thrown)
    else
      var cur := fetched.properties.value;
      var current := CurrentLabels(cur);
      var names := ParseLabels(input, parse);
      if current.Failure? || names.Failure? then Failure(Thrown)
      else LabelOpBody(cur, AddLabels(current.value, names.value), forceUpdate, fetched.etag)
  }

  /** What `removeLabelsFromIncident` sends, or the TypeError it throws. */
  function RemoveLabelsRequestBody(forceUpdate: bool, fetched: FetchedIncident, input: Json, parse: string -> Option<Json>): Result<Props>
  {
    if fetched.properties.None? then Failure(Thrown)
    else
      var cur := fetched.properties.value;
      var current := CurrentLabels(cur);
      var names := ParseLabels(input, parse);
      if current.Failure? || names.Failure? then Failure(Thrown)
      else LabelOpBody(cur, RemoveLabels(current.value, names.value), forceUpdate, fetched.etag)
  }

  /** The properties both label operations send, built field by field. */
  method BuildLabelOpProps(cur: Props, labels: seq<Json>) returns (r: Result<Props>)
    ensures r == LabelOpProps(cur, labels)
  {
    var properties := map[];
    properties := PutOpt(properties, "title", Get(cur, "title"));
    properties := PutOpt(properties, "severity", Get(cur, "severity"));
    properties := PutOpt(properties, "status", Get(cur, "status"));
    properties := PutOpt(properties, "description", Get(cur, "description"));
    properties := PutOpt(properties, "owner", Get(cur, "owner"));
    properties := properties["labels" := JArr(labels)];
    assert properties == LabelBase(cur, labels);
    if TruthyAt(cur, "classification") {
      properties := properties["classification" := cur["classification"]];
      properties := PutOpt(properties, "classificationComment", Get(cur, "classificationComment"));
      if TruthyAt(cur, "classificationReason") {
        properties := properties["classificationReason" := cur["classificationReason"]];
      }
    }
    assert properties == WithClassification(LabelBase(cur, labels), cur);
    ghost var before := properties;
    if TruthyAt(cur, "firstActivityTimeUtc") {
      if !cur["firstActivityTimeUtc"].JStr? {
        return Failure(Thrown);
      }
      properties := properties["firstActivityTimeUtc" := JStr(NormalizeDate(cur["firstActivityTimeUtc"].s))];
    }
    assert properties == Apply(before, "firstActivityTimeUtc", DateRule(map[], Some(cur), "firstActivityTimeUtc").value);
    before := properties;
    if TruthyAt(cur, "lastActivityTimeUtc") {
      if !cur["lastActivityTimeUtc"].JStr? {
        return Failure(Thrown);
      }
      properties := properties["lastActivityTimeUtc" := JStr(NormalizeDate(cur["lastActivityTimeUtc"].s))];
    }
    assert properties == Apply(before, "lastActivityTimeUtc", DateRule(map[], Some(cur), "lastActivityTimeUtc").value);
    r := Ok(properties);
  }

  /** The body both label operations build once the label list is known. */
  method SetLabelOpBody(opts: RequestOptions, incidentId: string, cur: Props, labels: seq<Json>, forceUpdate: bool, etag: Option<Json>)
    returns (r: Result<Props>)
    modifies opts
    ensures r == LabelOpBody(cur, labels, forceUpdate, etag)
    ensures r.Ok? ==> opts.body == Some(r.value) && opts.url == old(opts.url) + "/" + incidentId
    ensures r.Failure? ==> opts.body == old(opts.body) && opts.url == old(opts.url)
    ensures opts.qs == old(opts.qs)
  {
    var properties := BuildLabelOpProps(cur, labels);
    if properties.Failure? {
      return Failure(properties.reason);
    }
    var body := map["properties" := JObj(properties.value)];
    if !forceUpdate {
      body := PutOpt(body, "etag", etag);
    }
    opts.body := Some(body);
    opts.url := opts.url + "/" + incidentId;
    r := Ok(body);
  }

  /** `addLabelsToIncident`. */
  method AddLabelsToIncident(opts: RequestOptions, incidentId: string, forceUpdate: bool, fetched: FetchedIncident,
                             input: Json, parse: string -> Option<Json>)
    returns (r: Result<Props>)
    modifies opts
    ensures r == AddLabelsRequestBody(forceUpdate, fetched, input, parse)
    ensures r.Ok? ==> opts.body == Some(r.value) && opts.url == old(opts.url) + "/" + incidentId
    ensures r.Failure? ==> opts.body == old(opts.body) && opts.url == old(opts.url)
    ensures opts.qs == old(opts.qs)
  {
    if fetched.properties.None? {
      return Failure(Thrown);
    }
    var cur := fetched.properties.value;
    var current := CurrentLabels(cur);
    if current.Failure? {
      return Failure(Thrown);
    }
    var parsed := ParseLabels(input, parse);
    if parsed.Failure? {
      return Failure(Thrown);
    }
    var labels := current.value + NewLabels(Names(current.value), parsed.value);
    r := SetLabelOpBody(opts, incidentId, cur, labels, forceUpdate, fetched.etag);
  }

  /** `removeLabelsFromIncident`. */
  method RemoveLabelsFromIncident(opts: RequestOptions, incidentId: string, forceUpdate: bool, fetched: FetchedIncident,
                                  input: Json, parse: string -> Option<Json>)
    returns (r: Result<Props>)
    modifies opts
    ensures r == RemoveLabelsRequestBody(forceUpdate, fetched, input, parse)
    ensures r.Ok? ==> opts.body == Some(r.value) && opts.url == old(opts.url) + "/" + incidentId
    ensures r.Failure? ==> opts.body == old(opts.body) && opts.url == old(opts.url)
    ensures opts.qs == old(opts.qs)
  {
    if fetched.properties.None? {
      return Failure(Thrown);
    }
    var cur := fetched.properties.value;
    var current := CurrentLabels(cur);
    if current.Failure? {
      return Failure(Thrown);
    }
    var remove := ParseLabels(input, parse);
    if remove.Failure? {
      return Failure(Thrown);
    }
    var labels := RemoveLabels(current.value, remove.value);
    r := SetLabelOpBody(opts, incidentId, cur, labels, forceUpdate, fetched.etag);
  }

  /** The label base copies the five current fields and holds the new list. */
  lemma LabelBaseAt(cur: Props, labels: seq<Json>, k: string)
    requires k == "title" || k == "severity" || k == "status" || k == "description" || k == "owner"
    ensures var base := LabelBase(cur, labels);
            (k in base <==> k in cur) && (k in cur ==> base[k] == cur[k]) && base["labels"] == JArr(labels)
  {
    var p1 := PutOpt(map[], "title", Get(cur, "title"));
    var p2 := PutOpt(p1, "severity", Get(cur, "severity"));
    var p3 := PutOpt(p2, "status", Get(cur, "status"));
    var p4 := PutOpt(p3, "description", Get(cur, "description"));
    if k == "title" {
      PutOptOther(p1, "severity", Get(cur, "severity"), k);
    }
    if k == "title" || k == "severity" {
      PutOptOther(p2, "status", Get(cur, "status"), k);
    }
    if k != "description" && k != "owner" {
      PutOptOther(p3, "description", Get(cur, "description"), k);
    }
    if k != "owner" {
      PutOptOther(p4, "owner", Get(cur, "owner"), k);
    }
  }

  /** The classification step writes only the three classification keys. */
  lemma WithClassificationOther(props: Props, cur: Props, k: string)
    requires k != "classification" && k != "classificationComment" && k != "classificationReason"
    ensures k in WithClassification(props, cur) <==> k in props
    ensures k in props ==> WithClassification(props, cur)[k] == props[k]
  {
    if TruthyAt(cur, "classification") {
      PutOptOther(props["classification" := cur["classification"]], "classificationComment", Get(cur, "classificationComment"), k);
    }
  }

  /** A label operation's properties agree with the label base outside the
      classification and date keys. */
  lemma LabelOpPropsAt(cur: Props, labels: seq<Json>, k: string)
    requires k == "title" || k == "severity" || k == "status" || k == "description" || k == "owner" || k == "labels"
    requires LabelOpProps(cur, labels).Ok?
    ensures var base := LabelBase(cur, labels);
            var sent := LabelOpProps(cur, labels).value;
            (k in sent <==> k in base) && (k in base ==> sent[k] == base[k])
  {
    var first := DateRule(map[], Some(cur), "firstActivityTimeUtc").value;
    var last := DateRule(map[], Some(cur), "lastActivityTimeUtc").value;
    var withClass := WithClassification(LabelBase(cur, labels), cur);
    WithClassificationOther(LabelBase(cur, labels), cur, k);
    ApplyOther(withClass, "firstActivityTimeUtc", first, k);
    ApplyOther(Apply(withClass, "firstActivityTimeUtc", first), "lastActivityTimeUtc", last, k);
  }

  /** Both label operations copy title, severity, status, description and
      owner from the current incident (an undefined one stays undefined),
      send the new label list, and send the etag exactly when not forced. */
  lemma LabelOpCopiesCurrent(cur: Props, labels: seq<Json>, forceUpdate: bool, etag: Option<Json>, k: string)
    requires k == "title" || k == "severity" || k == "status" || k == "description" || k == "owner"
    requires LabelOpBody(cur, labels, forceUpdate, etag).Ok?
    ensures var body := LabelOpBody(cur, labels, forceUpdate, etag).value;
            body["properties"].JObj?
            && var sent := body["properties"].fields;
               (k in sent <==> k in cur) && (k in cur ==> sent[k] == cur[k])
               && "labels" in sent && sent["labels"] == JArr(labels)
               && ("etag" in body <==> !forceUpdate && etag.Some?)
  {
    LabelBaseAt(cur, labels, k);
    LabelOpPropsAt(cur, labels, k);
    LabelOpPropsAt(cur, labels, "labels");
    EtagRule(map["properties" := JObj(LabelOpProps(cur, labels).value)], forceUpdate, etag);
  }

  /** Adding labels keeps every current label, in order, and makes every
      parsed name a label name of the incident. */
  lemma AddLabelsKeepsCurrent(forceUpdate: bool, fetched: FetchedIncident, input: Json, parse: string -> Option<Json>)
    requires AddLabelsRequestBody(forceUpdate, fetched, input, parse).Ok?
    ensures fetched.properties.Some? && CurrentLabels(fetched.properties.value).Ok? && ParseLabels(input, parse).Ok?
    ensures var current := CurrentLabels(fetched.properties.value).value;
            var sent := AddLabelsRequestBody(forceUpdate, fetched, input, parse).value["properties"];
            sent.JObj? && "labels" in sent.fields && sent.fields["labels"].JArr?
            && var labels := sent.fields["labels"].elems;
               |labels| >= |current| && labels[..|current|] == current
               && forall n :: n in ParseLabels(input, parse).value ==>
                    exists i :: 0 <= i < |labels| && LabelName(labels[i]) == Ok(Some(JStr(n)))
  {
    var cur := fetched.properties.value;
    var current := CurrentLabels(cur).value;
    var names := ParseLabels(input, parse).value;
    var labels := AddLabels(current, names);
    LabelOpCopiesCurrent(cur, labels, forceUpdate, fetched.etag, "title");
    AddLabelsCovers(current, names);
  }

  /** Removing labels keeps, in order, exactly the current labels whose name
      is not listed. */
  lemma RemoveLabelsKeepsOthers(forceUpdate: bool, fetched: FetchedIncident, input: Json, parse: string -> Option<Json>)
    requires RemoveLabelsRequestBody(forceUpdate, fetched, input, parse).Ok?
    ensures fetched.properties.Some? && CurrentLabels(fetched.properties.value).Ok? && ParseLabels(input, parse).Ok?
    ensures var current := CurrentLabels(fetched.properties.value).value;
            var remove := ParseLabels(input, parse).value;
            var sent := RemoveLabelsRequestBody(forceUpdate, fetched, input, parse).value["properties"];
            sent.JObj? && "labels" in sent.fields
            && sent.fields["labels"] == JArr(RemoveLabels(current, remove))
            && |RemoveLabels(current, remove)| == |current| - NamedCount(current, remove)
  {
    var cur := fetched.properties.value;
    var current := CurrentLabels(cur).value;
    var remove := ParseLabels(input, parse).value;
    var labels := RemoveLabels(current, remove);
    LabelOpCopiesCurrent(cur, labels, forceUpdate, fetched.etag, "title");
    RemoveLabelsCount(current, remove);
  }
}

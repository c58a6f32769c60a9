/** The pre-send callbacks that shape the PUT bodies of alert rules,
    incidents, automation rules and comments: the id segment appended to the
    URL, the merge of custom properties under the body's own, and the fixed
    body layouts with their defaults. */
module RequestBodies {
  import opened JsonValues
  import opened HttpRequest

  // ---------------------------------------------------------------------------
  // addUUID

  /** The id appended by `addUUID`: the `objectId` option when it is a
      non-empty string, otherwise a fresh UUID (`uuid` stands for the value
      `randomUUID` returns). */
  function IdSegment(objectId: Option<string>, uuid: string): (r: string)
    ensures objectId.Some? && objectId.value != "" ==> r == objectId.value
    ensures !(objectId.Some? && objectId.value != "") ==> r == uuid
  {
    if objectId.Some? && objectId.value != "" then objectId.value else uuid
  }

  /** `addUUID`: the URL gains one path segment, the id. */
  method AddUUID(opts: RequestOptions, objectId: Option<string>, uuid: string)
    modifies opts
    ensures opts.url == old(opts.url) + "/" + IdSegment(objectId, uuid)
    ensures opts.qs == old(opts.qs) && opts.body == old(opts.body)
  {
    var id := if objectId.Some? && objectId.value != "" then objectId.value else uuid;
    opts.url := opts.url + "/" + id;
  }

  // ---------------------------------------------------------------------------
  // mergeProperties

  /** The `properties` object of a body before the merge: the body's own
      when truthy, otherwise `{}`. */
  function OwnProperties(body: Props): Props
  {
    if TruthyAt(body, "properties") then Spread(Some(body["properties"])) else map[]
  }

  /** The body after `mergeProperties`: a missing body becomes `{}`, and its
      `properties` become the custom properties overridden by the body's own. */
  function MergedBody(body: Option<Props>, custom: Props): Props
  {
    var b := if body.Some? then body.value else map[];
    b["properties" := JObj(custom + OwnProperties(b))]
  }

  /** A property the body already has beats the custom property of the same
      name; a custom property the body lacks is added; every other key of the
      body is kept. */
  lemma MergedBodyPrecedence(body: Props, custom: Props)
    ensures "properties" in MergedBody(Some(body), custom)
    ensures MergedBody(Some(body), custom)["properties"].JObj?
    ensures var merged := MergedBody(Some(body), custom)["properties"].fields;
            (forall k :: k in OwnProperties(body) ==> k in merged && merged[k] == OwnProperties(body)[k])
            && (forall k :: k in custom && k !in OwnProperties(body) ==> k in merged && merged[k] == custom[k])
            && (forall k :: k in merged <==> k in custom || k in OwnProperties(body))
    ensures forall k :: k != "properties" ==> (k in MergedBody(Some(body), custom) <==> k in body)
    ensures forall k :: k != "properties" && k in body ==> MergedBody(Some(body), custom)[k] == body[k]
  {
  }

  /** Merging the same custom properties twice is merging them once. */
  lemma MergedBodyIdempotent(body: Option<Props>, custom: Props)
    ensures MergedBody(Some(MergedBody(body, custom)), custom) == MergedBody(body, custom)
  {
    var once := MergedBody(body, custom);
    var b := if body.Some? then body.value else map[];
    assert OwnProperties(once) == custom + OwnProperties(b);
    assert custom + (custom + OwnProperties(b)) == custom + OwnProperties(b);
  }

  /** `mergeProperties` rewrites the body in place. */
  method MergeProperties(opts: RequestOptions, custom: Props)
    modifies opts
    ensures opts.body == Some(MergedBody(old(opts.body), custom))
    ensures opts.url == old(opts.url) && opts.qs == old(opts.qs)
  {
    if opts.body.None? {
      opts.body := Some(map[]);
    }
    var body := opts.body.value;
    ghost var original := body;
    if !TruthyAt(body, "properties") {
      body := body["properties" := JObj(map[])];
    }
    assert Spread(Some(body["properties"])) == OwnProperties(original);
    body := body["properties" := JObj(custom + Spread(Some(body["properties"])))];
    assert body == original["properties" := JObj(custom + OwnProperties(original))];
    opts.body := Some(body);
  }

  /** `applyTransformations`: `addUUID`, then `mergeProperties`. */
  method ApplyTransformations(opts: RequestOptions, objectId: Option<string>, uuid: string, custom: Props)
    modifies opts
    ensures opts.url == old(opts.url) + "/" + IdSegment(objectId, uuid)
    ensures opts.body == Some(MergedBody(old(opts.body), custom))
    ensures opts.qs == old(opts.qs)
  {
    AddUUID(opts, objectId, uuid);
    MergeProperties(opts, custom);
  }

  // ---------------------------------------------------------------------------
  // Body builders

  /** `getNodeParameter(name, default)`: the default stands in for an unset parameter. */
  function OrDefault(v: Option<Json>, d: Json): (r: Json)
    ensures v.Some? ==> r == v.value
    ensures v.None? ==> r == d
  {
    if v.Some? then v.value else d
  }

  /** The parameters `upsertAlertRule` reads; None is an unset parameter. */
  datatype AlertRuleParams = AlertRuleParams(
    ruleType: Option<Json>,
    etag: Option<Json>,
    displayName: Json,
    enabled: Json,
    severity: Json,
    query: Json,
    queryFrequency: Option<Json>,
    queryPeriod: Option<Json>,
    triggerOperator: Option<Json>,
    triggerThreshold: Option<Json>,
    additionalFields: Option<Json>)

  /** The named alert-rule properties, before the additional fields. */
  function AlertRuleNamed(p: AlertRuleParams): Props
  {
    var af := Spread(p.additionalFields);
    map[
      "displayName" := p.displayName,
      "enabled" := p.enabled,
      "severity" := p.severity,
      "query" := p.query,
      "queryFrequency" := OrDefault(p.queryFrequency, JNull),
      "queryPeriod" := OrDefault(p.queryPeriod, JNull),
      "suppressionDuration" := OrDefault(Get(af, "suppressionDuration"), JStr("PT5H")),
      "suppressionEnabled" := OrDefault(Get(af, "suppressionEnabled"), JBool(false)),
      "triggerOperator" := OrDefault(p.triggerOperator, JNull),
      "triggerThreshold" := OrDefault(p.triggerThreshold, JNull)]
  }

  /** The body `upsertAlertRule` sets: `kind` (default `Scheduled`), `etag`
      (default `null`) and the properties, where the additional fields are
      spread last (`additionalFields ?? {}`). */
  function AlertRuleBody(p: AlertRuleParams): Props
  {
    var extra := Spread(p.additionalFields);
    map[
      "kind" := OrDefault(p.ruleType, JStr("Scheduled")),
      "etag" := OrDefault(p.etag, JNull),
      "properties" := JObj(AlertRuleNamed(p) + extra)]
  }

  /** In an alert rule, an additional field overrides the named property of
      the same name; the named properties fill the rest, with the documented
      defaults. */
  lemma AlertRuleAdditionalFieldsWin(p: AlertRuleParams)
    ensures AlertRuleBody(p)["properties"].JObj?
    ensures var props := AlertRuleBody(p)["properties"].fields;
            var extra := Spread(p.additionalFields);
            (forall k :: k in extra ==> k in props && props[k] == extra[k])
            && (forall k :: k in AlertRuleNamed(p) && k !in extra ==> k in props && props[k] == AlertRuleNamed(p)[k])
            && ("suppressionDuration" !in extra ==> props["suppressionDuration"] == JStr("PT5H"))
            && ("suppressionEnabled" !in extra ==> props["suppressionEnabled"] == JBool(false))
            && (p.queryFrequency.None? && "queryFrequency" !in extra ==> props["queryFrequency"] == JNull)
            && (p.triggerThreshold.None? && "triggerThreshold" !in extra ==> props["triggerThreshold"] == JNull)
    ensures p.ruleType.None? ==> AlertRuleBody(p)["kind"] == JStr("Scheduled")
    ensures p.etag.None? ==> AlertRuleBody(p)["etag"] == JNull
  {
  }

  /** `upsertAlertRule`. */
  method UpsertAlertRule(opts: RequestOptions, p: AlertRuleParams, objectId: Option<string>, uuid: string, custom: Props)
    modifies opts
    ensures opts.body == Some(MergedBody(Some(AlertRuleBody(p)), custom))
    ensures opts.url == old(opts.url) + "/" + IdSegment(objectId, uuid)
    ensures opts.qs == old(opts.qs)
  {
    opts.body := Some(AlertRuleBody(p));
    ApplyTransformations(opts, objectId, uuid, custom);
  }

  /** In the alert rule sent, a custom property is only used for a key that
      neither the named properties nor the additional fields set. */
  lemma AlertRuleCustomLoses(p: AlertRuleParams, custom: Props, k: string)
    requires k in custom
    ensures MergedBody(Some(AlertRuleBody(p)), custom)["properties"].JObj?
    ensures var sent := MergedBody(Some(AlertRuleBody(p)), custom)["properties"].fields;
            var own := AlertRuleBody(p)["properties"].fields;
            k in sent && sent[k] == (if k in own then own[k] else custom[k])
  {
  }

  /** The body `upsertIncident` sets. */
  function IncidentBody(etag: Option<Json>, title: Json, description: Json, severity: Json, status: Json): Props
  {
    map[
      "etag" := OrDefault(etag, JNull),
      "properties" := JObj(map["title" := title, "description" := description, "severity" := severity, "status" := status])]
  }

  /** `upsertIncident`. */
  method UpsertIncident(opts: RequestOptions, etag: Option<Json>, title: Json, description: Json, severity: Json,
                        status: Json, objectId: Option<string>, uuid: string, custom: Props)
    modifies opts
    ensures opts.body == Some(MergedBody(Some(IncidentBody(etag, title, description, severity, status)), custom))
    ensures opts.url == old(opts.url) + "/" + IdSegment(objectId, uuid)
    ensures opts.qs == old(opts.qs)
  {
    opts.body := Some(IncidentBody(etag, title, description, severity, status));
    ApplyTransformations(opts, objectId, uuid, custom);
  }

  /** The four named incident fields always reach the request: custom
      properties cannot override them. */
  lemma IncidentFieldsWin(etag: Option<Json>, title: Json, description: Json, severity: Json, status: Json, custom: Props)
    ensures var sent := MergedBody(Some(IncidentBody(etag, title, description, severity, status)), custom);
            sent["properties"].JObj?
            && sent["properties"].fields["title"] == title
            && sent["properties"].fields["description"] == description
            && sent["properties"].fields["severity"] == severity
            && sent["properties"].fields["status"] == status
            && sent["etag"] == OrDefault(etag, JNull)
  {
  }

  /** `upsertAutomationRule`: the body is left as the host built it. */
  method UpsertAutomationRule(opts: RequestOptions, objectId: Option<string>, uuid: string, custom: Props)
    modifies opts
    ensures opts.body == Some(MergedBody(old(opts.body), custom))
    ensures opts.url == old(opts.url) + "/" + IdSegment(objectId, uuid)
    ensures opts.qs == old(opts.qs)
  {
    ApplyTransformations(opts, objectId, uuid, custom);
  }

  /** The body of a comment: `etag` (default `null`) and the message. */
  function CommentBody(etag: Option<Json>, message: Json): Props
  {
    map["etag" := OrDefault(etag, JNull), "properties" := JObj(map["message" := message])]
  }

  /** `upsertComment`: the comment body, then `addUUID` and `mergeProperties`. */
  method UpsertComment(opts: RequestOptions, etag: Option<Json>, message: Json, objectId: Option<string>, uuid: string, custom: Props)
    modifies opts
    ensures opts.body == Some(MergedBody(Some(CommentBody(etag, message)), custom))
    ensures opts.url == old(opts.url) + "/" + IdSegment(objectId, uuid)
    ensures opts.qs == old(opts.qs)
  {
    opts.body := Some(CommentBody(etag, message));
    ApplyTransformations(opts, objectId, uuid, custom);
  }

  /** `updateComment`: the comment body only; the URL already names the comment. */
  method UpdateComment(opts: RequestOptions, etag: Option<Json>, message: Json)
    modifies opts
    ensures opts.body == Some(CommentBody(etag, message))
    ensures opts.url == old(opts.url) && opts.qs == old(opts.qs)
  {
    opts.body := Some(CommentBody(etag, message));
  }

  /** The message of a created comment survives the merge whatever the custom
      properties hold, and the body keeps its two keys. */
  lemma CommentMessageWins(etag: Option<Json>, message: Json, custom: Props)
    ensures var sent := MergedBody(Some(CommentBody(etag, message)), custom);
            sent.Keys == {"etag", "properties"}
            && sent["properties"].JObj?
            && sent["properties"].fields["message"] == message
            && sent["properties"].fields.Keys == custom.Keys + {"message"}
  {
  }
}

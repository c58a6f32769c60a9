# Microsoft Sentinel node: request and response shaping

This project models the request and response shaping of the n8n community
node for Microsoft Sentinel. The node sends requests to the Azure management
API. Its helpers do three things:

- before a request goes out (`preSend`), they build the OData `$filter` of
  the incident list and the bodies of create/update calls;
- on update, they merge the user's fields over the incident fetched from the
  server, and they add labels to or remove labels from an incident;
- after the answer arrives (`postReceive`), they reshape it: the simple
  envelope form, grouping under one key, KQL tables turned into records,
  related alerts/entities/comments attached, and `_status` markers.

The older node's helpers are modelled in the same way: the OData clause
builder, the options of one request, and the two page-collecting loops.

A JSON value is a `Json` datatype. Integers stand in for numbers. An object
is a `map<string, Json>`. An absent key stands for a property that reads as
`undefined`, whether it is missing or present with the value `undefined`.
The difference shows in one place: in `updateIncident` an own `undefined` key
of the base object wins over a custom property of that name when the two are
spread together. That place keeps the own-`undefined` keys as a separate set.
When the source would throw a `TypeError`, the model returns a `Failure`.

Functions of the request options that change the options in place are
methods of a `RequestOptions` class. Hooks that update output items in place
take an `array<Item>`. The loops are methods with `while` loops, each proved
equal to a recursive specification function. The properties the code
promises are proved as lemmas about those functions.

Some inputs come from outside the node. They are parameters:

- the HTTP server: its answers to successive requests, where `None` is a
  rejected request;
- `JSON.parse`: a function `string -> Option<Json>`;
- the random UUID;
- the node parameters.

Files and modules:

| file | module | what |
|---|---|---|
| Json.dfy | JsonValues | JSON values, truthiness, object spread, optional assignment |
| Text.dfy | Text | split, join, trim, lower-casing |
| Request.dfy | HttpRequest | the mutable request options (`url`, `qs`, `body`) |
| Filter.dfy | ODataFilter | `normalizeDateForOData`, `buildODataFilterClause`, `buildFilterString` |
| Bodies.dfy | RequestBodies | `addUUID`, `mergeProperties`, `applyTransformations`, the upsert/comment bodies |
| Labels.dfy | Labels | `parseLabels`, label add and remove |
| FieldMerge.dfy | IncidentFields | `applyAdditionalFieldsToProperties`, `createIncident`, `updateIncident`, `addLabelsToIncident`, `removeLabelsFromIncident` |
| Output.dfy | ResponseShaping | `prepareOutput`, the `value` root property, `processQueryResults` |
| Related.dfy | RelatedData | `includeRelatedData` and the three fetchers |
| Routing.dfy | IncidentRouting | the incident routing hooks: `_status`, pagination continue and next URL |
| Legacy.dfy | LegacyRequests | the older node: `addFilter`, `microsoftApiRequest`, `microsoftApiRequestAllItems`, `microsoftApiRequestAllItemsSkip` |

## Model

| member | source | states |
|---|---|---|
| JsonValues.Spread | nodes/Microsoft/Sentinel/GenericFunctions.ts:205-208 | spreading an object copies its fields; spreading `undefined`, `null` or a non-object contributes nothing |
| JsonValues.PutOpt | nodes/Microsoft/Sentinel/GenericFunctions.ts:717-724 | assigning an `undefined` value leaves the key absent (dropped on serialisation); any other value is stored under the key |
| Text.ToLower | nodes/Microsoft/Sentinel/GenericFunctions.ts:394 | lower-casing keeps the length and maps each character by itself, ASCII letters to lower case |
| Text.DecimalString | nodes/Microsoft/Sentinel/GenericFunctions.ts:344 | the decimal form of an index, as JavaScript turns it into a property key: digits only, the first not `0` unless the index is 0 |
| ODataFilter.NormalizeDate | nodes/Microsoft/Sentinel/GenericFunctions.ts:73-80 | the result always ends in `Z` or a `±hh:mm` offset; a date that already has one is returned unchanged, any other gets `Z` appended |
| ODataFilter.NormalizeDateIdempotent | nodes/Microsoft/Sentinel/GenericFunctions.ts:73-80 | normalising twice equals normalising once |
| ODataFilter.NormalizeDateFixedPoints | nodes/Microsoft/Sentinel/GenericFunctions.ts:73-80 | a date is left unchanged exactly when it already carries a zone; otherwise the result is the date followed by one `Z` |
| ODataFilter.ODataClause | nodes/Microsoft/Sentinel/GenericFunctions.ts:62-65 | `buildODataFilterClause`: the values joined by `' or property op '`, inside `(property op '` and `')` |
| ODataFilter.Comparisons | nodes/Microsoft/Sentinel/GenericFunctions.ts:62-65 | one `property op 'value'` comparison per value, in order |
| ODataFilter.ClauseInside | nodes/Microsoft/Sentinel/GenericFunctions.ts:62-65 | the text between the clause's parentheses is the comparisons joined by ` or ` |
| ODataFilter.ODataClauseIsOrGroup | nodes/Microsoft/Sentinel/GenericFunctions.ts:62-65 | for a non-empty value list the clause is the parenthesised OR of one equality per value |
| ODataFilter.SplitCommaSpacesJoin | nodes/Microsoft/Sentinel/GenericFunctions.ts:119-121 | splitting on `/, */` undoes joining with a comma plus any run of spaces, for values without commas or leading spaces |
| ODataFilter.GroupClauseTextMatchesList | nodes/Microsoft/Sentinel/GenericFunctions.ts:118-131 | a severity/status filter given as comma text yields the same clause as the same values given as a list |
| ODataFilter.EscapeQuotes | nodes/Microsoft/Sentinel/GenericFunctions.ts:113 | the sanitised title contains no single quote |
| ODataFilter.UnescapeEscape | nodes/Microsoft/Sentinel/GenericFunctions.ts:113 | decoding `%27` back to `'` recovers any title that had no `%` of its own |
| ODataFilter.CreatedClause | nodes/Microsoft/Sentinel/GenericFunctions.ts:97-100 | one clause exactly when `createdAfter` is truthy |
| ODataFilter.ModifiedClause | nodes/Microsoft/Sentinel/GenericFunctions.ts:101-104 | one clause exactly when `modifiedAfter` is truthy |
| ODataFilter.IdClause | nodes/Microsoft/Sentinel/GenericFunctions.ts:107-109 | one clause exactly when `incidentId` is truthy |
| ODataFilter.TitleClause | nodes/Microsoft/Sentinel/GenericFunctions.ts:112-115 | one clause exactly when `title` is truthy |
| ODataFilter.GroupClause | nodes/Microsoft/Sentinel/GenericFunctions.ts:118-131 | one clause exactly when the severity/status filter is non-empty |
| ODataFilter.RawClause | nodes/Microsoft/Sentinel/GenericFunctions.ts:134-136 | one clause exactly when the raw `filter` is truthy |
| ODataFilter.FilterClauses | nodes/Microsoft/Sentinel/GenericFunctions.ts:96-136 | the clauses in the source's order: created after, modified after, incident number, title, severity, status, raw filter, each present only when its field is given |
| ODataFilter.FilterClausesCount | nodes/Microsoft/Sentinel/GenericFunctions.ts:96-136 | there is one clause per given filter, at most seven, and none exactly when no filter is given |
| ODataFilter.RawFilterAlone | nodes/Microsoft/Sentinel/GenericFunctions.ts:134-142 | a raw filter given alone is sent as itself in parentheses |
| ODataFilter.SeverityListAlone | nodes/Microsoft/Sentinel/GenericFunctions.ts:118-142 | a severity list given alone is sent as the OR of its equalities |
| ODataFilter.TitleClauseEscaped | nodes/Microsoft/Sentinel/GenericFunctions.ts:112-115 | a given title contributes its `contains(toLower(...))` clause, and the quoted title holds no `'` |
| ODataFilter.WithFilter | nodes/Microsoft/Sentinel/GenericFunctions.ts:138-149 | the query parameters: unchanged when there is no clause, else with `$filter` set to the clauses joined by ` and ` |
| ODataFilter.WithFilterKeys | nodes/Microsoft/Sentinel/GenericFunctions.ts:139-143 | `$filter` is set to the clauses joined by ` and ` when any filter is given; every other query key is kept unchanged |
| ODataFilter.ScalarClauses | nodes/Microsoft/Sentinel/GenericFunctions.ts:96-115 | the scalar filters are pushed in source order: created, modified, id, title |
| ODataFilter.BuildFilterString | nodes/Microsoft/Sentinel/GenericFunctions.ts:88-152 | the request's query becomes the filtered query; url and body are untouched |
| RequestBodies.IdSegment | nodes/Microsoft/Sentinel/GenericFunctions.ts:180-182 | a non-empty `objectId` is used as the id, otherwise a fresh UUID |
| RequestBodies.AddUUID | nodes/Microsoft/Sentinel/GenericFunctions.ts:176-184 | the url gains `/` and the id; nothing else changes |
| RequestBodies.MergedBody | nodes/Microsoft/Sentinel/GenericFunctions.ts:192-210 | the body after `mergeProperties`: a missing body becomes `{}`, and its `properties` become the custom properties overridden by the body's own |
| RequestBodies.MergedBodyPrecedence | nodes/Microsoft/Sentinel/GenericFunctions.ts:192-210 | merged properties hold exactly the custom keys and the body's own keys, the body's own value winning on a clash; body keys other than `properties` are unchanged |
| RequestBodies.MergedBodyIdempotent | nodes/Microsoft/Sentinel/GenericFunctions.ts:192-210 | merging the same custom properties a second time changes nothing |
| RequestBodies.MergeProperties | nodes/Microsoft/Sentinel/GenericFunctions.ts:192-210 | the body becomes the merged body; url and query are untouched |
| RequestBodies.ApplyTransformations | nodes/Microsoft/Sentinel/GenericFunctions.ts:161-168 | the url gains the id and the body is merged, in that order; the query is untouched |
| RequestBodies.AlertRuleBody | nodes/Microsoft/Sentinel/GenericFunctions.ts:222-238 | the alert-rule body: `kind` (default `Scheduled`), `etag` (default `null`), and the named properties with the additional fields spread over them |
| RequestBodies.OrDefault | nodes/Microsoft/Sentinel/GenericFunctions.ts:222-235 | a parameter that is set gives its value, otherwise the declared default |
| RequestBodies.AlertRuleAdditionalFieldsWin | nodes/Microsoft/Sentinel/GenericFunctions.ts:222-238 | additional fields override the named rule parameters; the defaults `PT5H`, `false`, `Scheduled` and `null` apply where neither is given |
| RequestBodies.UpsertAlertRule | nodes/Microsoft/Sentinel/GenericFunctions.ts:218-241 | the body is the alert-rule body merged with the custom properties, and the url gains the id |
| RequestBodies.AlertRuleCustomLoses | nodes/Microsoft/Sentinel/GenericFunctions.ts:205-208 | a custom property reaches the alert rule only where the rule body does not set that key |
| RequestBodies.IncidentBody | nodes/Microsoft/Sentinel/GenericFunctions.ts:253-261 | the incident body: `etag` (default `null`) and properties `title`, `description`, `severity`, `status` |
| RequestBodies.UpsertIncident | nodes/Microsoft/Sentinel/GenericFunctions.ts:249-263 | the body is the incident body merged with the custom properties, and the url gains the id |
| RequestBodies.IncidentFieldsWin | nodes/Microsoft/Sentinel/GenericFunctions.ts:253-261 | the sent title, description, severity and status are the parameters, whatever the custom properties say; a missing etag is sent as `null` |
| RequestBodies.UpsertAutomationRule | nodes/Microsoft/Sentinel/GenericFunctions.ts:272-277 | the routed body is merged with the custom properties and the url gains the id |
| RequestBodies.CommentBody | nodes/Microsoft/Sentinel/GenericFunctions.ts:290-296 | the comment body: `etag` (default `null`) and properties holding only `message` |
| RequestBodies.UpsertComment | nodes/Microsoft/Sentinel/GenericFunctions.ts:286-297 | the body is the comment body merged with the custom properties, and the url gains the id |
| RequestBodies.UpdateComment | nodes/Microsoft/Sentinel/GenericFunctions.ts:307-318 | the body is the comment body alone, with no merge and no url change |
| RequestBodies.CommentMessageWins | nodes/Microsoft/Sentinel/GenericFunctions.ts:290-296 | a merged comment body has exactly `etag` and `properties`, its message is the parameter, and its property keys are the custom keys plus `message` |
| Labels.NonEmptyStrings | nodes/Microsoft/Sentinel/GenericFunctions.ts:425 | only non-empty strings of the parsed array are kept |
| Labels.NonEmptyStringsAppend | nodes/Microsoft/Sentinel/GenericFunctions.ts:425 | the filter distributes over concatenation |
| Labels.NonEmptyStringsKeepsAll | nodes/Microsoft/Sentinel/GenericFunctions.ts:425 | a list of non-empty strings passes the filter whole |
| Labels.CommaPieces | nodes/Microsoft/Sentinel/GenericFunctions.ts:432 | each comma piece is non-empty, trimmed and comma-free |
| Labels.ParseLabels | nodes/Microsoft/Sentinel/GenericFunctions.ts:415-436 | it throws exactly when a list input holds `null`; every label is non-empty; a list input yields a sub-list of its strings; comma text yields trimmed comma-free pieces; any other input yields `[]` |
| Labels.NullElements | nodes/Microsoft/Sentinel/GenericFunctions.ts:416-426 | `null` in a list input throws, while `null` in a JSON array text is dropped by the `typeof` test |
| Labels.CommaListRoundTrip | nodes/Microsoft/Sentinel/GenericFunctions.ts:420-432 | parsing names joined by a comma and any spaces gives the names back, when the text is not a JSON array |
| Labels.JsonArrayText | nodes/Microsoft/Sentinel/GenericFunctions.ts:422-426 | text that parses as a JSON array of non-empty names gives those names |
| Labels.ListInput | nodes/Microsoft/Sentinel/GenericFunctions.ts:416-418 | a list of non-empty names is returned unchanged |
| Labels.UserLabels | nodes/Microsoft/Sentinel/GenericFunctions.ts:589-592 | one `{labelName, labelType: 'User'}` per name, in order |
| Labels.Names | nodes/Microsoft/Sentinel/GenericFunctions.ts:596 | the `labelName` of every current label, in order |
| Labels.CurrentLabels | nodes/Microsoft/Sentinel/GenericFunctions.ts:703 | a falsy `labels` reads as `[]`; a truthy one must be the array that is read |
| Labels.NewLabels | nodes/Microsoft/Sentinel/GenericFunctions.ts:710-715 | at most one new label per parsed name |
| Labels.AddLabels | nodes/Microsoft/Sentinel/GenericFunctions.ts:709-723 | the current labels come first, unchanged |
| Labels.AddLabelsCovers | nodes/Microsoft/Sentinel/GenericFunctions.ts:709-723 | after adding, every parsed name is some label's name, and every appended label is a user label for a name not already present |
| Labels.NewLabelsHas | nodes/Microsoft/Sentinel/GenericFunctions.ts:710-715 | a parsed name absent from the current labels gets its user label |
| Labels.NewLabelsFrom | nodes/Microsoft/Sentinel/GenericFunctions.ts:710-715 | every new label comes from a parsed name absent from the current labels |
| Labels.AddPresentNames | nodes/Microsoft/Sentinel/GenericFunctions.ts:709-723 | adding names that are all present leaves the labels as they were |
| Labels.NewLabelsNone | nodes/Microsoft/Sentinel/GenericFunctions.ts:710-715 | no new labels when every name is present |
| Labels.RemoveLabels | nodes/Microsoft/Sentinel/GenericFunctions.ts:783-785 | the remaining labels are current labels whose name is not to be removed |
| Labels.RemoveLabelsCount | nodes/Microsoft/Sentinel/GenericFunctions.ts:783-785 | exactly the labels named for removal are dropped; when none is named, the list is unchanged |
| Labels.RemoveLabelsAppend | nodes/Microsoft/Sentinel/GenericFunctions.ts:783-785 | removal distributes over concatenation |
| Labels.RemoveAllNew | nodes/Microsoft/Sentinel/GenericFunctions.ts:710-715 | removing the added names removes every label that adding created |
| Labels.RemoveMore | nodes/Microsoft/Sentinel/GenericFunctions.ts:783-785 | removing a superset of names that already empties the list still empties it |
| Labels.RemoveUndoesAdd | nodes/Microsoft/Sentinel/GenericFunctions.ts:692-828 | adding names and then removing them equals removing them from the original labels |
| IncidentFields.CopyRule | nodes/Microsoft/Sentinel/GenericFunctions.ts:514-519 | the write to `description` (and `classificationComment`, lines 541-545): the additional field when present, else on update the current value when truthy, else none |
| IncidentFields.ClassificationRule | nodes/Microsoft/Sentinel/GenericFunctions.ts:521-538 | the writes to `classification` and `classificationReason`: the parts before and after the first colon, or the whole value without one; on update an absent field inherits a truthy current classification and reason; a TypeError when `includes` or `split` cannot run |
| IncidentFields.DateRule | nodes/Microsoft/Sentinel/GenericFunctions.ts:547-562 | a date field: a present truthy value normalised, a present falsy one `null`; on update an absent field inherits a truthy current value, normalised; a TypeError for a value that is not a string |
| IncidentFields.OwnerRule | nodes/Microsoft/Sentinel/GenericFunctions.ts:564-579 | `owner`: a present truthy value becomes a user owner object, a present falsy one `null`; on update an absent owner inherits a truthy current one |
| IncidentFields.LabelMode | nodes/Microsoft/Sentinel/GenericFunctions.ts:584 | `labelMode || "add"` |
| IncidentFields.LabelsRule | nodes/Microsoft/Sentinel/GenericFunctions.ts:581-608 | `labels`: on create or in `replace` mode the parsed names as user labels; on update in `add` mode the current labels then the new names; in another mode no write; on update an absent field inherits truthy current labels |
| IncidentFields.Merged | nodes/Microsoft/Sentinel/GenericFunctions.ts:507-609 | the properties after `applyAdditionalFieldsToProperties`, every rule applied in the source's order, or the TypeError of the first rule that throws |
| IncidentFields.Apply | nodes/Microsoft/Sentinel/GenericFunctions.ts:507-609 | a field write stores its value; a keep leaves the properties as they are |
| IncidentFields.ApplyOther | nodes/Microsoft/Sentinel/GenericFunctions.ts:507-609 | a field write touches no other key |
| IncidentFields.ApplyPlanAt | nodes/Microsoft/Sentinel/GenericFunctions.ts:507-609 | after all writes, a key holds its write's value or its old value, and unmanaged keys are never written |
| IncidentFields.MergedAt | nodes/Microsoft/Sentinel/GenericFunctions.ts:507-609 | a successful merge gives each key its write's value or keeps the given property |
| IncidentFields.AssignTextFields | nodes/Microsoft/Sentinel/GenericFunctions.ts:514-545 | description, classification and classificationComment are assigned by their rules; a non-string classification throws |
| IncidentFields.AssignOtherFields | nodes/Microsoft/Sentinel/GenericFunctions.ts:547-608 | dates, owner and labels are assigned by their rules; a non-string date or unreadable labels throw |
| IncidentFields.ApplyAdditionalFields | nodes/Microsoft/Sentinel/GenericFunctions.ts:507-609 | the properties become the merged properties, or the TypeError the source throws |
| IncidentFields.PresentKeyWins | nodes/Microsoft/Sentinel/GenericFunctions.ts:514-579 | a key present in the additional fields wins: falsy owner and dates clear to `null`, a truthy owner becomes the user owner object, truthy dates are normalised |
| IncidentFields.NonStringDateThrows | nodes/Microsoft/Sentinel/GenericFunctions.ts:548-562 | a truthy non-string date makes the merge throw |
| IncidentFields.AbsentOmittedOnCreate | nodes/Microsoft/Sentinel/GenericFunctions.ts:512-608 | on create, a field the user did not give is not sent |
| IncidentFields.AbsentInheritedOnUpdate | nodes/Microsoft/Sentinel/GenericFunctions.ts:514-608 | on update, a field the user did not give keeps the current truthy value (dates normalised); a falsy current value leaves the key as it was |
| IncidentFields.ReasonInheritedOnUpdate | nodes/Microsoft/Sentinel/GenericFunctions.ts:532-537 | the current reason is kept exactly when a current classification and reason are both truthy |
| IncidentFields.ClassificationWithReason | nodes/Microsoft/Sentinel/GenericFunctions.ts:522-527 | `C:R[:...]` sets classification `C` and reason `R` |
| IncidentFields.ClassificationRuleWithReason | nodes/Microsoft/Sentinel/GenericFunctions.ts:522-527 | the classification rule for `C:R[:...]` writes exactly `C` and `R` |
| IncidentFields.ClassificationWithoutReason | nodes/Microsoft/Sentinel/GenericFunctions.ts:528-531 | a value without `:` sets the classification and leaves the reason as it was |
| IncidentFields.LabelsReplaced | nodes/Microsoft/Sentinel/GenericFunctions.ts:587-592 | on create or in replace mode, the labels are the user labels of the parsed names |
| IncidentFields.LabelsAdded | nodes/Microsoft/Sentinel/GenericFunctions.ts:593-604 | on update in add mode, the labels are the current labels plus new user labels |
| IncidentFields.DefaultLabelMode | nodes/Microsoft/Sentinel/GenericFunctions.ts:584 | a falsy label mode means `add` |
| IncidentFields.LabelsUnknownMode | nodes/Microsoft/Sentinel/GenericFunctions.ts:587-604 | on update, an unknown label mode leaves the labels untouched |
| IncidentFields.WithEtag | nodes/Microsoft/Sentinel/GenericFunctions.ts:673-676 | `body.etag = currentIncident.etag` unless the update is forced |
| IncidentFields.EtagRule | nodes/Microsoft/Sentinel/GenericFunctions.ts:673-676 | `etag` is sent exactly when the update is not forced and the incident has one; nothing else in the body changes |
| IncidentFields.CreateBase | nodes/Microsoft/Sentinel/GenericFunctions.ts:621-625 | the properties `createIncident` starts from: `title`, `severity`, `status` |
| IncidentFields.CreateRequestBody | nodes/Microsoft/Sentinel/GenericFunctions.ts:617-636 | what `createIncident` sends: only `properties`, merged from the additional fields and then over the custom properties; or the TypeError |
| IncidentFields.CreateIncident | nodes/Microsoft/Sentinel/GenericFunctions.ts:617-636 | on success the body is the create body and the url gains the id; on a TypeError the options are untouched |
| IncidentFields.CreateBodyShape | nodes/Microsoft/Sentinel/GenericFunctions.ts:621-635 | the create body has only `properties`; with no additional fields it is title, severity and status over the custom properties |
| IncidentFields.Chosen | nodes/Microsoft/Sentinel/GenericFunctions.ts:660-664 | a title/severity/status given by the user wins; otherwise the current value is used |
| IncidentFields.UpdateBase | nodes/Microsoft/Sentinel/GenericFunctions.ts:660-664 | the properties `updateIncident` starts from: each of `title`, `severity`, `status` from the additional fields when given, else from the current incident |
| IncidentFields.HiddenKeys | nodes/Microsoft/Sentinel/GenericFunctions.ts:660-664 | the start keys whose chosen value is undefined; spread over the custom properties they hide the custom value of that name |
| IncidentFields.BuildUpdateBase | nodes/Microsoft/Sentinel/GenericFunctions.ts:660-664 | the base object holds the chosen title, severity and status, and owns as `undefined` exactly the ones with no choice |
| IncidentFields.UpdateRequestBody | nodes/Microsoft/Sentinel/GenericFunctions.ts:644-684 | what `updateIncident` sends: the merged properties, the etag unless forced, merged over the custom properties without the hidden keys; a TypeError without fetched properties or from a rule |
| IncidentFields.UpdateIncident | nodes/Microsoft/Sentinel/GenericFunctions.ts:644-684 | on success the body is the update body, with the custom properties under an own-`undefined` key hidden, and the url gains the incident id; on failure the options are untouched |
| IncidentFields.UpdateBaseAt | nodes/Microsoft/Sentinel/GenericFunctions.ts:660-664 | the update base has title, severity and status exactly as chosen |
| IncidentFields.UpdateMergedAt | nodes/Microsoft/Sentinel/GenericFunctions.ts:660-667 | after the merge, title, severity and status are present exactly when chosen, with the chosen value |
| IncidentFields.UpdateBodyShape | nodes/Microsoft/Sentinel/GenericFunctions.ts:644-684 | the sent title/severity/status are the chosen ones; one with no choice is not sent, whatever the custom properties hold; `etag` is the fetched one exactly when the update is not forced |
| IncidentFields.LabelBase | nodes/Microsoft/Sentinel/GenericFunctions.ts:717-724 | the first properties of a label operation: the current `title`, `severity`, `status`, `description`, `owner`, and the new label list |
| IncidentFields.WithClassification | nodes/Microsoft/Sentinel/GenericFunctions.ts:727-735 | a truthy current `classification` is copied with `classificationComment`, and a truthy `classificationReason` too |
| IncidentFields.LabelOpProps | nodes/Microsoft/Sentinel/GenericFunctions.ts:717-743 | the properties a label operation sends: the base, the classification fields, and truthy current dates normalised; a TypeError for a date that is not a string |
| IncidentFields.LabelOpBody | nodes/Microsoft/Sentinel/GenericFunctions.ts:745-752 | the body of a label operation: those properties and the etag unless forced |
| IncidentFields.AddLabelsRequestBody | nodes/Microsoft/Sentinel/GenericFunctions.ts:692-758 | what `addLabelsToIncident` sends: the label body with the current labels followed by the new names; a TypeError without fetched properties, for bad current labels or for label input that throws |
| IncidentFields.RemoveLabelsRequestBody | nodes/Microsoft/Sentinel/GenericFunctions.ts:766-828 | what `removeLabelsFromIncident` sends: the label body with the current labels whose name is not among the given names; a TypeError in the same cases |
| IncidentFields.BuildLabelOpProps | nodes/Microsoft/Sentinel/GenericFunctions.ts:717-743 | the label-operation properties are built field by field from the current incident |
| IncidentFields.SetLabelOpBody | nodes/Microsoft/Sentinel/GenericFunctions.ts:717-757 | the body has the label-operation properties and the etag rule, and the url gains the incident id |
| IncidentFields.AddLabelsToIncident | nodes/Microsoft/Sentinel/GenericFunctions.ts:692-758 | on success the body is the add-labels body and the url gains the id; on failure the options are untouched |
| IncidentFields.RemoveLabelsFromIncident | nodes/Microsoft/Sentinel/GenericFunctions.ts:766-828 | on success the body is the remove-labels body and the url gains the id; on failure the options are untouched |
| IncidentFields.LabelBaseAt | nodes/Microsoft/Sentinel/GenericFunctions.ts:717-724 | title, severity, status, description and owner are copied from the current incident, and labels are the computed list |
| IncidentFields.LabelOpPropsAt | nodes/Microsoft/Sentinel/GenericFunctions.ts:717-743 | the later classification and date steps keep those copied keys |
| IncidentFields.LabelOpCopiesCurrent | nodes/Microsoft/Sentinel/GenericFunctions.ts:717-757 | a label operation sends the current title, severity, status, description and owner, the new labels, and the etag unless forced |
| IncidentFields.AddLabelsKeepsCurrent | nodes/Microsoft/Sentinel/GenericFunctions.ts:703-723 | adding keeps every current label in front, and every parsed name ends up as some label |
| IncidentFields.RemoveLabelsKeepsOthers | nodes/Microsoft/Sentinel/GenericFunctions.ts:777-793 | the sent labels are the current ones minus those named, one fewer per named label |
| ResponseShaping.SimplifyEnvelope | nodes/Microsoft/Sentinel/GenericFunctions.ts:379-386 | the simple form of an envelope: `id` from `name`, then `kind`, then the keys of `properties` over both, then `etag` over all; an undefined value leaves no key |
| ResponseShaping.OutKey | nodes/Microsoft/Sentinel/GenericFunctions.ts:394-398 | the grouping key: the operation name lower-cased, with one leading `get` removed |
| ResponseShaping.SimplifyEnvelopeAt | nodes/Microsoft/Sentinel/GenericFunctions.ts:379-386 | simple form: `etag` from the envelope; then the properties' keys; then `id` from `name` and `kind` where the properties do not set them; nothing else |
| ResponseShaping.OutKeyShape | nodes/Microsoft/Sentinel/GenericFunctions.ts:394-398 | the grouping key is the lower-cased operation without one leading `get`, and contains no upper-case letter |
| ResponseShaping.Formatted | nodes/Microsoft/Sentinel/GenericFunctions.ts:377-388 | same count and order; each item is simplified when asked, and paired with the current input index |
| ResponseShaping.PrepareOutput | nodes/Microsoft/Sentinel/GenericFunctions.ts:362-408 | every item paired with the current item index and, in simple mode, simplified; then the items themselves when results are split, else one item holding all their JSON, in order, under the grouping key |
| ResponseShaping.PrepareOutputSplit | nodes/Microsoft/Sentinel/GenericFunctions.ts:362-392 | split results keep the count and order, and each item holds its (simplified) JSON |
| ResponseShaping.PrepareOutputGrouped | nodes/Microsoft/Sentinel/GenericFunctions.ts:393-407 | grouped results are one item with only the grouping key, holding every item's JSON in order |
| ResponseShaping.ValueItems | nodes/Microsoft/Sentinel/descriptions/IncidentDescription.ts:126-133 | list items come from the body's `value` array, one per element |
| ResponseShaping.ListOutput | nodes/Microsoft/Sentinel/descriptions/IncidentDescription.ts:126-134 | the list output: the objects of the `value` array as items, passed through `prepareOutput`; no output when the body has no such array |
| ResponseShaping.ListOutputSplit | nodes/Microsoft/Sentinel/descriptions/IncidentDescription.ts:126-134 | split list output has one item per listed incident, in order |
| ResponseShaping.ColumnNames | nodes/Microsoft/Sentinel/GenericFunctions.ts:343-345 | names are read exactly when every column has a string `ColumnName`, one per column |
| ResponseShaping.Cell | nodes/Microsoft/Sentinel/GenericFunctions.ts:344 | `row[index]` on a row that is not `null`: an array's element, a string's character, an object's property named by the decimal index; undefined beyond an array or a string and on a number or a boolean |
| ResponseShaping.RowRecord | nodes/Microsoft/Sentinel/GenericFunctions.ts:342-345 | the record of one row: the columns assigned in order, each name getting the row's cell at that column, an undefined cell leaving no key |
| ResponseShaping.LastIndex | nodes/Microsoft/Sentinel/GenericFunctions.ts:343-345 | finds the last column with a given name, or reports that none has it |
| ResponseShaping.RowRecordAt | nodes/Microsoft/Sentinel/GenericFunctions.ts:342-345 | a record holds, under each name, the cell of the last column with that name, and is absent exactly when that cell is undefined; it holds no other key |
| ResponseShaping.RowRecords | nodes/Microsoft/Sentinel/GenericFunctions.ts:341-350 | one record per row, in order, unless a row is `null` and there is a column to read from it |
| ResponseShaping.NonArrayRows | nodes/Microsoft/Sentinel/GenericFunctions.ts:341-345 | a string row is read by character, an object row by its `"0"`, `"1"` keys, a number row has no cells; a `null` row fails only when there is a column |
| ResponseShaping.FirstElement | nodes/Microsoft/Sentinel/GenericFunctions.ts:336 | `Tables[0]`: the first element of an array or the `"0"` property of an object; nothing for any other value |
| ResponseShaping.FirstTable | nodes/Microsoft/Sentinel/GenericFunctions.ts:335-338 | the first table's columns and rows; a TypeError unless `Tables[0]` is an object whose `Rows` is an array |
| ResponseShaping.QueryItems | nodes/Microsoft/Sentinel/GenericFunctions.ts:327-353 | the items of `processQueryResults`: one per row of the first table, each its row's record with the current index; no items when there are no rows; a TypeError for a malformed table or column, or a `null` row read by a column |
| ResponseShaping.QueryItemsRows | nodes/Microsoft/Sentinel/GenericFunctions.ts:327-353 | one item per row of the first table, in row order, each its row's record paired with the input index |
| ResponseShaping.ProcessQueryResults | nodes/Microsoft/Sentinel/GenericFunctions.ts:327-353 | the loop over rows and columns returns the query items, or the TypeError |
| RelatedData.MapAll | nodes/Microsoft/Sentinel/GenericFunctions.ts:886-892 | mapping succeeds exactly when every element maps, and keeps the order |
| RelatedData.SimplifyRelated | nodes/Microsoft/Sentinel/GenericFunctions.ts:886-891 | the simple form of an alert or entity: `id` from `name`, `kind`, then the keys of `properties`; a `null` element throws |
| RelatedData.Listed | nodes/Microsoft/Sentinel/GenericFunctions.ts:884 | `response[key] || []`: the listed value when truthy, else `[]`; reading it from a `null` answer throws |
| RelatedData.FetchedList | nodes/Microsoft/Sentinel/GenericFunctions.ts:866-934 | what the alert or entity fetch resolves to: the listed value, mapped element by element to its simple form in simple mode; a rejection for a rejected request, a `null` answer, or a simple map over a non-array or a `null` element |
| RelatedData.OrEmpty | nodes/Microsoft/Sentinel/GenericFunctions.ts:1040-1045 | a rejected fetch is replaced by `[]` |
| RelatedData.SimpleAlerts | nodes/Microsoft/Sentinel/GenericFunctions.ts:866-895 | in simple mode each listed alert is simplified in order; an empty list gives `[]`; a `null` element makes the fetch reject |
| RelatedData.AppendOpt | nodes/Microsoft/Sentinel/GenericFunctions.ts:964-965 | a page's comments go in front of the later pages' comments, unless a later page fails |
| RelatedData.Characters | nodes/Microsoft/Sentinel/GenericFunctions.ts:965 | spreading a string gives one single-character string per character, in order |
| RelatedData.PageComments | nodes/Microsoft/Sentinel/GenericFunctions.ts:964-965 | the comments of one page: none for a falsy `value`, an array's elements, a string's characters; a throw for a rejected request, a `null` page or any other truthy `value` |
| RelatedData.HasNext | nodes/Microsoft/Sentinel/GenericFunctions.ts:968 | the comment loop goes on exactly when the page's `nextLink` is truthy |
| RelatedData.CommentPages | nodes/Microsoft/Sentinel/GenericFunctions.ts:950-969 | the comments of every page from a given one on, in page order, up to the first page without a truthy `nextLink`; a failure when a page fails or the answers run out first |
| RelatedData.SimplifyComment | nodes/Microsoft/Sentinel/GenericFunctions.ts:972-976 | the simple form of a comment: `id` from `name`, then the keys of `properties`, then `etag` over them; a `null` comment throws |
| RelatedData.FetchedComments | nodes/Microsoft/Sentinel/GenericFunctions.ts:944-980 | what the comment fetch resolves to: every page's comments in order, each mapped to its simple form in simple mode |
| RelatedData.CommentPagesStop | nodes/Microsoft/Sentinel/GenericFunctions.ts:953-969 | pages after the first one without a `nextLink` are never read |
| RelatedData.FetchComments | nodes/Microsoft/Sentinel/GenericFunctions.ts:944-980 | the `while (url)` loop returns every page's comments, simplified when asked; a string `value` is spread into characters, and a truthy `value` that is not iterable fails |
| RelatedData.IncidentId | nodes/Microsoft/Sentinel/GenericFunctions.ts:1021-1030 | the id used is truthy: `id` in simple mode, `name` otherwise |
| RelatedData.Enriched | nodes/Microsoft/Sentinel/GenericFunctions.ts:1017-1081 | one item after its window step: unchanged without an id; otherwise each enabled key among `Alerts`, `Entities`, `Comments` set to its fetch, or `[]` when the fetch fails |
| RelatedData.EnrichedFields | nodes/Microsoft/Sentinel/GenericFunctions.ts:1017-1081 | an item with an id gains exactly the enabled keys, each its fetch or `[]`, and keeps every other field; an item without an id is unchanged |
| RelatedData.NothingIncluded | nodes/Microsoft/Sentinel/GenericFunctions.ts:999-1002 | with no include option set, an item is unchanged |
| RelatedData.IncludeRelatedData | nodes/Microsoft/Sentinel/GenericFunctions.ts:989-1089 | every item becomes its enriched form, in batches of 12; with nothing included the items are unchanged and no batch runs |
| IncidentRouting.UpsertStatus | nodes/Microsoft/Sentinel/descriptions/IncidentDescription.ts:64 | `Created` exactly for status 201, otherwise `Updated` |
| IncidentRouting.DeleteStatus | nodes/Microsoft/Sentinel/descriptions/IncidentDescription.ts:91 | `Deleted` exactly for status 200, otherwise `Not Found` |
| IncidentRouting.MarkUpserted | nodes/Microsoft/Sentinel/descriptions/IncidentDescription.ts:58-67 | every item keeps its JSON and gains `_status` |
| IncidentRouting.MarkDeleted | nodes/Microsoft/Sentinel/descriptions/IncidentDescription.ts:83-94 | every item's JSON is replaced by `{_status}` alone |
| IncidentRouting.ContinuePaging | nodes/Microsoft/Sentinel/descriptions/IncidentDescription.ts:140 | the continue rule: all results asked for and a `nextLink` on the body that is not undefined |
| IncidentRouting.ContinuePagingIff | nodes/Microsoft/Sentinel/descriptions/IncidentDescription.ts:140 | paging continues exactly when all results are asked for and the body has a `nextLink`, even a `null` one |
| IncidentRouting.StripPaging | nodes/Microsoft/Sentinel/descriptions/IncidentDescription.ts:142 | the rewrite as written: every match of `&?(api-version|\$top)=.*?(&|$)` removed, left to right, each scan resuming after the match |
| IncidentRouting.StripFromShorter | nodes/Microsoft/Sentinel/descriptions/IncidentDescription.ts:142 | the rewrite as written never lengthens the link |
| IncidentRouting.StripPagingUnchanged | nodes/Microsoft/Sentinel/descriptions/IncidentDescription.ts:142 | a link with no `api-version=` or `$top=` is kept unchanged |
| IncidentRouting.StripPagingTail | nodes/Microsoft/Sentinel/descriptions/IncidentDescription.ts:142 | a paging parameter that starts the only match cuts the link there |
| IncidentRouting.StripMiddleParameter | nodes/Microsoft/Sentinel/descriptions/IncidentDescription.ts:142 | as written, a middle paging parameter is removed together with both of its `&`s |
| IncidentRouting.StripMergesNeighbours | nodes/Microsoft/Sentinel/descriptions/IncidentDescription.ts:142 | as written, `?x=1&$top=5&y=2` becomes `?x=1y=2` |
| IncidentRouting.MatchesAgree | nodes/Microsoft/Sentinel/descriptions/IncidentDescription.ts:142 | the corrected pattern matches at exactly the same positions as the original |
| IncidentRouting.StripPagingFixed | nodes/Microsoft/Sentinel/descriptions/IncidentDescription.ts:142 | the corrected rewrite: an `api-version` or `$top` parameter after an `&` is removed with that `&` only, so the separator before the next parameter stays |
| IncidentRouting.StripFixedMiddle | nodes/Microsoft/Sentinel/descriptions/IncidentDescription.ts:142 | corrected: a middle paging parameter goes and its neighbours stay joined by one `&` |
| IncidentRouting.StripFixedTrailing | nodes/Microsoft/Sentinel/descriptions/IncidentDescription.ts:142 | a trailing paging parameter is cut off by both rewrites |
| IncidentRouting.StripFixedExample | nodes/Microsoft/Sentinel/descriptions/IncidentDescription.ts:142 | corrected: `?x=1&$top=5&y=2` becomes `?x=1&y=2` |
| IncidentRouting.StripFixedUnchanged | nodes/Microsoft/Sentinel/descriptions/IncidentDescription.ts:142 | the corrected rewrite keeps a link with no paging parameter |
| IncidentRouting.StripFixedShorter | nodes/Microsoft/Sentinel/descriptions/IncidentDescription.ts:142 | the corrected rewrite never lengthens the link |
| IncidentRouting.NextPageUrl | nodes/Microsoft/Sentinel/descriptions/IncidentDescription.ts:142 | a `null` body short-circuits the optional chain, and the URL is `/incidents`; any other body throws exactly when its `nextLink` is not a string; otherwise the next URL is never empty: the rewritten link, or `/incidents` when that is empty |
| IncidentRouting.NullLinkThrows | nodes/Microsoft/Sentinel/descriptions/IncidentDescription.ts:140-142 | as written, a `null` `nextLink` continues paging and the next-URL expression then throws |
| IncidentRouting.ContinuePagingFixed | nodes/Microsoft/Sentinel/descriptions/IncidentDescription.ts:140 | corrected: paging continues only when the link is a string, never more often than as written |
| IncidentRouting.ContinueFixedSafe | nodes/Microsoft/Sentinel/descriptions/IncidentDescription.ts:140-142 | corrected: paging continues exactly when all results are asked for, the body is an object and a next URL can be made from it |
| LegacyRequests.AddFilter | nodes/MicrosoftSentinel/GenericFunctions.ts:12-18 | the older builder produces the same clause as the current one |
| LegacyRequests.AddFilterIsOrGroup | nodes/MicrosoftSentinel/GenericFunctions.ts:12-18 | for a non-empty value list it is the OR of one equality per value |
| LegacyRequests.BuildOptions | nodes/MicrosoftSentinel/GenericFunctions.ts:61-84 | body and qs are sent exactly when non-empty; the uri is the given one or the subscription endpoint; the caller's headers override Content-Type `application/json` |
| LegacyRequests.LimitOf | nodes/MicrosoftSentinel/GenericFunctions.ts:107 | `query.limit` as a number: an absent or non-numeric limit reads as 0, no limit |
| LegacyRequests.LimitReached | nodes/MicrosoftSentinel/GenericFunctions.ts:130 | `limit && limit <= returnData.length` |
| LegacyRequests.Pushed | nodes/MicrosoftSentinel/GenericFunctions.ts:126 | an answer's array is appended whole; reading a `null` answer throws |
| LegacyRequests.Gathered | nodes/MicrosoftSentinel/GenericFunctions.ts:126 | nothing is gathered before the first answer |
| LegacyRequests.GatheredNext | nodes/MicrosoftSentinel/GenericFunctions.ts:126 | each further answer appends its own list |
| LegacyRequests.JsSlice | nodes/MicrosoftSentinel/GenericFunctions.ts:131 | `slice(0, end)` is a prefix, its length clamped, with a negative end counting from the back |
| LegacyRequests.Truncated | nodes/MicrosoftSentinel/GenericFunctions.ts:130-135 | the result is a prefix of what was gathered, exactly `limit` long when the limit was reached, and everything when there is no limit |
| LegacyRequests.FirstTop | nodes/MicrosoftSentinel/GenericFunctions.ts:110 | the first `$top` is the limit when it is truthy and at most 1000, else 1000 |
| LegacyRequests.FirstQuery | nodes/MicrosoftSentinel/GenericFunctions.ts:107-110 | the first query drops `limit`, sets `$top`, and keeps every other key |
| LegacyRequests.DigitsEnd | nodes/MicrosoftSentinel/GenericFunctions.ts:115 | `\d+` takes the whole run of digits |
| LegacyRequests.StripTop | nodes/MicrosoftSentinel/GenericFunctions.ts:115 | `replace(/(&\$top=)(\d+)/, "")`: the first `&$top=` followed by digits is cut out with all its digits; the rest is kept |
| LegacyRequests.StripTopUnchanged | nodes/MicrosoftSentinel/GenericFunctions.ts:115 | a uri without `&$top=<digits>` is unchanged |
| LegacyRequests.StripTopFirst | nodes/MicrosoftSentinel/GenericFunctions.ts:115 | the leftmost `&$top=` and its whole digit run are cut out, and nothing else |
| LegacyRequests.StripTopParameter | nodes/MicrosoftSentinel/GenericFunctions.ts:115 | in a laid-out uri, only the first `&$top=N` is removed |
| LegacyRequests.StripTopExample | nodes/MicrosoftSentinel/GenericFunctions.ts:115 | `?a=1&$top=50&b=2` becomes `?a=1&b=2` |
| LegacyRequests.StripTopOpt | nodes/MicrosoftSentinel/GenericFunctions.ts:115 | `uri?.replace(...)`: an undefined uri stays undefined |
| LegacyRequests.NextUri | nodes/MicrosoftSentinel/GenericFunctions.ts:122 | the next uri from `nextLink`: a string as it is, `null` as no uri; any other value is a TypeError |
| LegacyRequests.LaterCall | nodes/MicrosoftSentinel/GenericFunctions.ts:113-124 | later requests have an empty body; `$top` is limit minus the items collected exactly when fewer than 1000 are missing, and then the uri loses its `$top`; otherwise the query is empty |
| LegacyRequests.AllItemsFrom | nodes/MicrosoftSentinel/GenericFunctions.ts:111-133 | the loop from a given request on: each answer's list appended; a stop at the limit (sliced to it), at an answer without `nextLink`, or at a failure; every call sent, in order |
| LegacyRequests.AllItems | nodes/MicrosoftSentinel/GenericFunctions.ts:92-136 | `microsoftApiRequestAllItems`: the loop from the first request, which carries the body and the query without `limit` and with `$top` |
| LegacyRequests.RequestAllItems | nodes/MicrosoftSentinel/GenericFunctions.ts:92-136 | the loop's items and requests are those of the specification `AllItems` |
| LegacyRequests.AllItemsCalls | nodes/MicrosoftSentinel/GenericFunctions.ts:107-124 | the first request has the first query and the body; every later one follows the previous answer's link, sized by what was gathered |
| LegacyRequests.AllItemsResult | nodes/MicrosoftSentinel/GenericFunctions.ts:119-135 | a success stops at the first answer that reaches the limit or has no `nextLink`, returns everything gathered (truncated), and every earlier answer pointed on |
| LegacyRequests.AllItemsBounded | nodes/MicrosoftSentinel/GenericFunctions.ts:130-135 | a positive limit bounds the result; with no limit it is every answer's list concatenated |
| LegacyRequests.SkipTop | nodes/MicrosoftSentinel/GenericFunctions.ts:150 | `$top` is the given non-zero number, else 1000 |
| LegacyRequests.SkipQuery | nodes/MicrosoftSentinel/GenericFunctions.ts:150-160 | the k-th query has `$top` and `$skip = k * $top`, and keeps every other key |
| LegacyRequests.ValueEmpty | nodes/MicrosoftSentinel/GenericFunctions.ts:176 | the loop stops when the answer's `value` is an empty array or string, or an object whose `length` is the number 0; a number or boolean never stops it; a missing or `null` `value` throws |
| LegacyRequests.SkipFrom | nodes/MicrosoftSentinel/GenericFunctions.ts:156-176 | the loop from the i-th request on: `$skip` is i times `$top`; each answer's list appended; a stop at the limit, at an empty `value`, or at a failure; every call sent, in order |
| LegacyRequests.AllItemsSkip | nodes/MicrosoftSentinel/GenericFunctions.ts:138-179 | `microsoftApiRequestAllItemsSkip`: the loop from the first request, with `$top` defaulting to 1000 and `$skip` from 0 |
| LegacyRequests.RequestAllItemsSkip | nodes/MicrosoftSentinel/GenericFunctions.ts:138-179 | the loop's items and requests are those of the specification `AllItemsSkip` |
| LegacyRequests.SkipCalls | nodes/MicrosoftSentinel/GenericFunctions.ts:150-160 | request k carries `$skip = k * $top`, the same body and the same other keys |
| LegacyRequests.SkipResult | nodes/MicrosoftSentinel/GenericFunctions.ts:156-178 | a success stops at the first answer that reaches `query.limit` or has an empty `value`, returns everything gathered, and every earlier answer continued |

## Left out

- Numbers are integers: floating point, and numeric strings coerced by `<=` or `+`, are not modelled.
- Text.ToLower lower-cases ASCII letters only.
- JsonValues.Spread: spreading a string or an array (which JavaScript spreads by index) contributes nothing.
- Labels.ParseLabels: an element of a list input that is neither a string nor `null` is dropped; the source keeps an element whose `length` is positive, such as a nested array.
- IncidentFields.UpdateIncident: a fetched incident without `properties` is modelled as a failure.
- ResponseShaping.ColumnNames: a column without a string `ColumnName` is modelled as a failure; JavaScript would use the string form of the name as a key.
- LegacyRequests.LimitOf: a `limit` that is not a number reads as no limit.
- LegacyRequests.SkipTop: a `$top` that is not a number reads as 1000.
- LegacyRequests.NextUri: a `nextLink` that is neither a string nor `null` is treated as a TypeError.
- LegacyRequests.Pushed: an object list without `length` adds nothing; array-like objects with a numeric `length` are not modelled.
- ResponseShaping.Cell: a string row is indexed by Unicode scalar value; JavaScript indexes UTF-16 code units.
- Logging (`debugRequest`, `debugResponse`, the `nodeDebug` branches, `console.log`) has no effect on results and is left out.
- `getIncident` and `buildIncidentBaseUrl` parse the workspace path with regular expressions and call the server. The model takes the fetched incident and the server's answers as inputs.
- `workspaceQuery` is a constant query text with no logic.
- The UI descriptions, the node and credential registration files, and the older node's `execute` are declarations, not logic.
- Concurrency: `Promise.all` within a batch of 12 is modelled as sequential. It is equivalent here because each item's fetches write only that item's keys.
- The HTTP transport and `NodeApiError` are modelled as a sequence of answers. A rejected request is `None`, and running out of answers is a "no response" failure.
- `randomUUID` and `JSON.parse` are parameters.
- ResponseShaping.ValueItems: the `rootProperty` step of the list operation is modelled only for a `value` array of objects; any other body gives no items.
- IncidentRouting.NextPageUrl uses the corrected rewrite; the rewrite as written is modelled beside it (see Findings). A body that is a string, number, boolean or array has no `nextLink` and throws, as in JavaScript.
- `pairedItem` is modelled as an index; the object form is not.
- LegacyRequests.BuildOptions: the `json: true` flag is kept as a boolean with no further meaning.

## Findings

| source | as written | input that shows it | evidently intended | confidence | as-written member | corrected member |
|---|---|---|---|---|---|---|
| nodes/Microsoft/Sentinel/descriptions/IncidentDescription.ts:142 | `/&?(api-version\|\$top)=.*?(&\|$)/g` consumes the `&` on both sides of a paging parameter in the middle of the link | `?x=1&$top=5&y=2` | `?x=1&y=2`: the neighbours stay joined | high; not executed | IncidentRouting.StripMergesNeighbours | IncidentRouting.StripFixedExample |
| nodes/Microsoft/Sentinel/descriptions/IncidentDescription.ts:140-142 | the continue rule `nextLink !== undefined` lets a `null` link through, and `nextLink.replace(...)` then throws | a page `{"nextLink": null}` with all results asked for | stop paging when there is no link to follow | medium (the server may never send `null`); not executed | IncidentRouting.NullLinkThrows | IncidentRouting.ContinueFixedSafe |

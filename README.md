# GET LIMS workflow and trigger core, in Dafny

This project models two small engines of the GET LIMS laboratory information
system.

**Task-sequence resolution and input readiness** (`lims/workflows/models.py`):
- A `Workflow`'s `order` and a `Run`'s `tasks` are comma-separated lists of
  task-template ids. `get_tasks` turns such a list into templates, in list
  order, with `None` for every id that has no template.
- `get_task_at_index` fetches the template at one position.
- `get_task_list` parses the list without an empty-text guard.
- `Run.has_valid_inputs` maps each product of a run to whether it carries an
  inventory item of the current task's input type.
- The field templates' `field_name` normaliser turns a label into a field name.

**Trigger evaluation and alert fan-out** (`lims/shared/models.py`):
- A `Trigger` is a field/operator/value condition.
- A `TriggerSet` fires when all of its triggers hold.
- On every save of an instance of a watched model, `fire_trigger` does three
  things for each set that fires:
  - it stores one `TriggerAlert`;
  - it stores one `ACTIVE` `TriggerAlertStatus` per subscription;
  - it sends one mail, built from the set's e-mail template, to the
    subscribers who asked for e-mail.

## Structure

- `results.dfy`: `Option` and `Result`.
- `text.dfy`: the Python builtins the core relies on, over `seq<char>`. These
  are `int()`, `str()` of an integer, `split(',')`, `','.join`, `replace` and
  ASCII `lower()`. It also proves their round trips.
- `catalog.dfy`: the `TaskTemplate` table, written as a sequence of rows, and
  the two queries the workflow code issues. `filter(pk__in=...)` becomes
  `FetchByIds` and `get(pk=...)` becomes `FindById`. The file also holds id-list
  parsing and `ResolveIds`, the ordering loop of `get_tasks`.
- `workflows.dfy`: `Workflow` and `Run` as datatypes. The source never updates
  their fields in this code, so they carry no state. Their loops are methods:
  `GetTasks` and `HasValidInputs`. Each is proved against a specification
  predicate or function. `FieldName` is the normaliser.
- `triggers.dfy`: the operator enumeration and Python's string ordering.
  - `TriggerFires` compares by a closed dispatch over the six operators. It
    compares as text when the attribute is a string and as integers otherwise.
  - `AllTriggersFire` stops at the first trigger that is not true.
  - `TriggerFiresAsWritten` models the `eval` form, for the finding below.
- `alerts.dfy`:
  - the severity and status enumerations and the records;
  - the e-mail template: `CompleteEmailTemplate` is a loop of `replace` calls,
    proved equal to a reference rendering over template segments;
  - `Fire`, the specification of `fire_trigger`;
  - the `AlertLog` class. Its fields stand for the alert table, the status
    table and the mail handed to `send_mail`. Its method `FireTrigger` is proved
    to append exactly what `Fire` describes.

Python exceptions that the code lets escape are `Result` errors:
- `ValueError` from `int()` becomes `Text.ValueError`.
- `IndexError` from a position past the end of the id list becomes
  `Workflows.Error.IndexOutOfRange`.
- A trigger value that is not an integer literal, compared with an integer
  attribute, becomes `Triggers.TriggerError`. `eval` raises for some such
  values (a bare name, empty text) but not for all of them (a float or an
  arithmetic expression); see `Triggers.TriggerFires` under "Left out".

An exception in `fire_trigger` ends the call. The records stored before it
remain.

Three behaviours of the code that are easy to misread:
- `fire_trigger` is a `post_save` receiver that ignores `created`, so it runs
  on every save, not only on creation.
- `get_task_list` has no empty-text guard, so `""` is an error.
- `has_valid_inputs` returns `False`, modelled as `NoTask`, only when there is
  no template at the current index. An out-of-range index or a malformed list
  is an error, as in the code.

## Model

| member | source | states |
|---|---|---|
| Text.ParseInt | lims/workflows/models.py:26 | `int(v)` succeeds exactly on an optional sign followed by at least one digit, and its value is the sign times the decimal value of the digits. Any other text raises `ValueError` carrying that text. |
| Text.FormatThenParse | lims/workflows/models.py:26 | `int(str(n)) == n` for every integer. |
| Text.Split | lims/workflows/models.py:26 | `split(',')` yields one piece more than there are commas, and no piece contains a comma. |
| Text.JoinSplit | lims/workflows/models.py:26 | Joining the pieces of a split with the separator gives back the text. |
| Text.SplitJoin | lims/workflows/models.py:26 | Splitting a join of comma-free pieces gives back exactly those pieces. |
| Text.ReplaceAbsent | lims/shared/models.py:96 | `replace` leaves text without an occurrence of the pattern unchanged. |
| Text.ReplaceCharPointwise | lims/workflows/models.py:233 | `replace(' ', '_')` keeps the length and maps each character: a space becomes `_`, everything else is kept. |
| Text.Lower | lims/workflows/models.py:233 | `lower()` keeps the length and leaves no upper-case letter. Each upper-case letter becomes its lower-case counterpart, and every other character is kept in place. |
| Text.LowerIdempotent | lims/workflows/models.py:233 | Lower-casing twice is the same as lower-casing once. |
| Catalog.FindById | lims/workflows/models.py:30 | The lookup returns a row with the requested id, or `None` exactly when no row has that id. |
| Catalog.FetchByIds | lims/workflows/models.py:27 | The batch query returns exactly the table rows whose id is listed. |
| Catalog.BatchLookup | lims/workflows/models.py:27-30 | Searching the fetched batch for a listed id finds the same row as searching the whole table. |
| Catalog.FindKeyedRow | lims/workflows/models.py:38 | With unique primary keys, `get(pk=t.id)` returns `t`. |
| Catalog.ParseAll | lims/workflows/models.py:26 | On success the ids have the same count and order as the pieces. On failure the error is that of the first piece `int()` rejects. |
| Catalog.ParseIdList | lims/workflows/models.py:26 | `[int(v) for v in text.split(',')]` gives one id per comma plus one, or the error of the first piece `int()` rejects. |
| Catalog.ParseFormattedIdList | lims/workflows/models.py:26 | The stored text of any non-empty id list parses back to that list, in order. |
| Catalog.EmptyIdListFails | lims/workflows/models.py:98 | Empty text is no id list: `int('')` raises. |
| Catalog.ResolveIds | lims/workflows/models.py:27-30 | One entry per listed id, in list order. Entry `i` is the template with id `ids[i]`, or `None`. Equal ids resolve to equal entries. |
| Workflows.Workflow.GetTasks | lims/workflows/models.py:24-32 | Empty `order` gives `[]`. A malformed id raises. Otherwise the result has one entry per listed id, in order, each the template with that id or `None`. |
| Workflows.Workflow.GetTaskAtIndex | lims/workflows/models.py:34-41 | Empty `order` gives `None`. Otherwise: the template listed at the index, `None` when no template has that id, and an error for a malformed list or an index past the end (both directions stated). |
| Workflows.Run.GetTaskList | lims/workflows/models.py:94-98 | Empty text raises. On success: one integer per comma-separated piece, in order. The text of any non-empty list parses back to that list. |
| Workflows.Run.GetTasks | lims/workflows/models.py:100-111 | Same contract as `Workflow.GetTasks`, for `tasks`. |
| Workflows.Run.GetTaskAtIndex | lims/workflows/models.py:113-123 | Same contract as `Workflow.GetTaskAtIndex`, for `tasks`. |
| Workflows.Run.HasValidInputs | lims/workflows/models.py:125-135 | An error propagates. No task at `current_task` gives `NoTask`. Otherwise the result is a map whose keys are exactly the run's product ids. Each value is true exactly when that product has a linked item of the task's input type. |
| Workflows.CountOfType | lims/workflows/models.py:130 | `linked_inventory.filter(item_type=...).count()` never exceeds the number of linked items. |
| Workflows.CountPositiveIffLinked | lims/workflows/models.py:130 | `count() > 0` holds exactly when some linked item has the type. |
| Workflows.ReadinessMap | lims/workflows/models.py:127-133 | The keys of the filled map are exactly the product ids. |
| Workflows.ReadinessOfProduct | lims/workflows/models.py:129-134 | Each product's entry is whether it has a linked item of the input type. |
| Workflows.CollectReadiness | lims/workflows/models.py:129-134 | The loop over the run's products fills exactly `ReadinessMap`, whose keys are the product ids. |
| Workflows.ReadinessOfEveryProduct | lims/workflows/models.py:129-134 | When ids determine products, every product's entry is the readiness test on that product. |
| Workflows.ReadinessOfTwoProducts | lims/workflows/models.py:125-135 | A product with an item of the input type maps to true. A product without one maps to false. |
| Workflows.TaskAtAgreesWithResolution | lims/workflows/models.py:24-41 | Inside the list, `get_task_at_index(i)` equals entry `i` of `get_tasks()`. Past the end it fails. |
| Workflows.FieldName | lims/workflows/models.py:232-233 | The length is kept. Spaces become `_`, and every other character is lower-cased. |
| Workflows.FieldNameNormal | lims/workflows/models.py:256-257 | A field name has no space and no upper-case letter, and normalising it again changes nothing. |
| Triggers.ParseOperator | lims/shared/models.py:102-115 | The stored operator text names exactly one of the six operators, or none. |
| Triggers.OperatorSymbolRoundTrip | lims/shared/models.py:102-107 | Each operator's symbol parses back to that operator. |
| Triggers.StrLessAsymmetric | lims/shared/models.py:126-131 | String `<` is asymmetric. |
| Triggers.StrLessTotal | lims/shared/models.py:126-131 | Two strings are equal or one is less than the other. |
| Triggers.StrLessTransitive | lims/shared/models.py:126-131 | String `<` is transitive. |
| Triggers.CompareInts | lims/shared/models.py:130-131 | The numeric ordering agrees with `<` and `==` on integers. |
| Triggers.CompareStrings | lims/shared/models.py:126-131 | The text ordering agrees with lexicographic `<` and equality. |
| Triggers.Satisfies | lims/shared/models.py:130-131 | The dispatch that stands for the comparison `eval` computes: each operator accepts the orderings of its Python comparison. Its laws are stated by `OperatorLaws`. |
| Triggers.OperatorLaws | lims/shared/models.py:102-115 | `!=` negates `=`, `>=` negates `<` and `<=` negates `>`. `<=` is `<` or `=`, and `>=` is `>` or `=`. |
| Triggers.Attribute | lims/shared/models.py:123-125 | `hasattr` holds exactly for `id` and the stored attributes. `getattr` gives the instance id for `id` and the stored value otherwise. |
| Triggers.TriggerFires | lims/shared/models.py:122-132 | An absent field gives false and never an error. The result is an error exactly when a numeric attribute meets a value that is not an integer. |
| Triggers.TextComparison | lims/shared/models.py:126-131 | On a string attribute each operator is its lexicographic relation with the stored value. |
| Triggers.NumericComparison | lims/shared/models.py:124-131 | On an integer attribute each operator is its arithmetic relation with the stored value. |
| Triggers.NotEqualNegatesEqual | lims/shared/models.py:102-107 | On a present field, `!=` is the negation of `=`. On an absent field both are false. |
| Triggers.AllTriggersFire | lims/shared/models.py:81-85 | The result is true exactly when every trigger fires. An empty set fires. |
| Triggers.StopsAtFirstFalse | lims/shared/models.py:82-84 | After the first false trigger, later triggers are not looked at, even ones that would raise. |
| Triggers.ErrorFromFirstNonFiring | lims/shared/models.py:81-85 | An error comes from the first trigger that does not fire, with all earlier ones true. |
| Triggers.TriggerFiresAsWritten | lims/shared/models.py:122-132 | An absent field gives false. The composed expression is a `SyntaxError` exactly when the field is present and the operator is `=`, the one stored symbol that is not a Python comparison token. |
| Triggers.EqualRaisesAsWritten | lims/shared/models.py:130-131 | As written, a `=` trigger on a present field raises `SyntaxError`. |
| Triggers.FailedStatusCounterexample | lims/shared/models.py:130-131 | `status = failed` on a failed instance raises as written and is true in the model. |
| Alerts.ParseSeverity | lims/shared/models.py:37-44 | Exactly the codes `L`, `M` and `H` name a severity. |
| Alerts.SeverityCodeRoundTrip | lims/shared/models.py:37-44 | Each severity's code names it. |
| Alerts.ParseAlertStatus | lims/shared/models.py:144-151 | Exactly the codes `A`, `S` and `D` name a status. |
| Alerts.AlertStatusCodeRoundTrip | lims/shared/models.py:144-151 | Each status's code names it. |
| Alerts.Field.Placeholder | lims/shared/models.py:96 | A placeholder starts with `{` and has no other `{`. |
| Alerts.CompleteEmailTemplate | lims/shared/models.py:87-97 | The loop performs the four substitutions in the dict's order. A template with no placeholder is returned unchanged. |
| Alerts.FillWithoutPlaceholders | lims/shared/models.py:88-97 | Text without placeholders survives every substitution. |
| Alerts.Fill | lims/shared/models.py:95-96 | The `replace` passes, one per substitution, in the dict's order. Its properties are stated by `FillWithoutPlaceholders`, `FillFlatten` and `TemplateRenders`. |
| Alerts.OnePass | lims/shared/models.py:96 | One `replace` pass turns exactly the holes of its field into the value, provided the literal text has no `{` and the value has no `{` either. |
| Alerts.FillFlatten | lims/shared/models.py:95-96 | The sequence of `replace` passes does to the text what resolving does to the segments. |
| Alerts.ResolvedRenders | lims/shared/models.py:89-94 | Resolving with the four substitutions puts each field's value in its place. |
| Alerts.TemplateRenders | lims/shared/models.py:87-97 | Literals without `{` and values without `{` render to exactly the intended message. |
| Alerts.DefaultSegmentsFlatten | lims/shared/models.py:50-52 | The default template is the placeholder/literal sequence shown. |
| Alerts.DefaultTemplateMessage | lims/shared/models.py:87-97 | With plain values, the default template renders as `DefaultMessage`: `<name>: <model> instance <id> triggered on <date>.`. |
| Alerts.FillAsWritten | lims/shared/models.py:95-96 | Unpacking each key into two names succeeds exactly when every key is two characters long. A failure names one of the keys. |
| Alerts.TemplateAsWrittenAlwaysRaises | lims/shared/models.py:95-96 | As written, every call raises on unpacking the first key, `model` in insertion order. |
| Alerts.TemplateAsWrittenRaisesInAnyOrder | lims/shared/models.py:89-96 | Whatever order the dict yields its four keys in, unpacking the first one raises. |
| Alerts.Recipients | lims/shared/models.py:60-64 | The collected addresses number at most the subscriptions. Their order and multiplicity are stated by `RecipientsConcat`, `RecipientsOfOne`, `RecipientsCount`, `RecipientAt` and `RecipientsInOrder`. |
| Alerts.RecipientsConcat | lims/shared/models.py:62-64 | The addresses of two runs of subscriptions are those of the first followed by those of the second. |
| Alerts.RecipientsOfOne | lims/shared/models.py:63-64 | One subscription contributes its user's address exactly when it asks for e-mail. |
| Alerts.RecipientsCount | lims/shared/models.py:62-64 | There are exactly as many addresses as subscriptions asking for e-mail. |
| Alerts.RecipientAt | lims/shared/models.py:62-64 | The address of an e-mail subscription comes right after the addresses of the subscriptions before it. |
| Alerts.RecipientsInOrder | lims/shared/models.py:62-64 | There is exactly one address per e-mail subscription, and each e-mail subscription's address sits right after those of the subscriptions before it: subscription order. |
| Alerts.RecipientsExactly | lims/shared/models.py:60-64 | The recipients are exactly the addresses of e-mail subscriptions. The list is empty exactly when no subscription asks for e-mail. |
| Alerts.StatusesFor | lims/shared/models.py:62-69 | One status per subscription, in order. Each is `ACTIVE`, with the subscriber as owner and as last updater, and points at the new alert. |
| Alerts.Raise | lims/shared/models.py:60-79 | Raising a set keeps the error and every earlier record. It adds exactly one alert, one status per subscription and at most one mail. |
| Alerts.Step | lims/shared/models.py:58-79 | After an error a turn changes nothing. Otherwise records are only appended, at most one alert and one mail per set. |
| Alerts.Fire | lims/shared/models.py:56-79 | A call records at most one alert and at most one mail per trigger set. |
| Alerts.OfModel | lims/shared/models.py:57-58 | The selected sets are exactly those whose `model` is the saved model's name. |
| Alerts.OnlyWatchedModel | lims/shared/models.py:57-58 | Sets of other models add no record and no error. |
| Alerts.FiredSets | lims/shared/models.py:58-59 | The fired sets are exactly the watched sets whose triggers all hold. |
| Alerts.FireSettled | lims/shared/models.py:58-59 | After an error, later sets add nothing. |
| Alerts.EvaluateThenRaise | lims/shared/models.py:58-79 | Without an error, firing equals choosing the fired sets and then raising each of them: evaluation records nothing. |
| Alerts.RaiseAll | lims/shared/models.py:60-79 | Raising fired sets one after another records no error and one alert per set. |
| Alerts.RaisedAlerts | lims/shared/models.py:61 | There is exactly one alert per fired set, in order, each recording the set, the instance id and the fire time. |
| Alerts.RaisedStatuses | lims/shared/models.py:62-69 | The statuses number the subscriptions of the fired sets. Each belongs to a subscriber of the set whose alert it points at, and every subscription of every fired set has its status for that set's alert. |
| Alerts.StatusPositions | lims/shared/models.py:60-69 | The statuses lie in order: those of the k-th fired set follow those of the sets before it, one per subscription in subscription order, each pointing at alert `base + k`. |
| Alerts.RaisedMails | lims/shared/models.py:71-79 | The mails number the fired sets with e-mail subscribers. Each is such a set's mail, and every such set's mail, with its title, rendered body and full recipient list, is among them. |
| Alerts.MailPositions | lims/shared/models.py:60-79 | The mails lie in order: a fired set with e-mail subscribers sends its mail right after the mails of the sets before it. |
| Alerts.ErrorKeepsEarlierRecords | lims/shared/models.py:58-59 | An error comes from the first watched set whose triggers raise. The records of the sets before it remain. |
| Alerts.FailedSampleRaisesAlert | lims/shared/models.py:56-79 | A `status = failed` set with one e-mail subscriber, on a failed instance, gives one alert, one active status and one mail to that one recipient. The mail's body holds the instance id and the fire time. |
| Alerts.SucceededSampleRecordsNothing | lims/shared/models.py:56-79 | The same set, on an instance whose status is `succeeded`, records nothing. |
| Alerts.AlertLog.RaiseAlert | lims/shared/models.py:60-79 | Appends one alert and one status per subscription. Appends the mail exactly when some subscriber wants e-mail. Every status points at a stored alert. |
| Alerts.AlertLog.SendMail | lims/shared/models.py:71-79 | Sends one message, with the set's title and its rendered template, to the collected recipients exactly when there is at least one; the tables are untouched. |
| Alerts.AlertLog.Visit | lims/shared/models.py:59-79 | One turn of the loop over sets appends exactly what `Step` adds. |
| Alerts.AlertLog.FireTrigger | lims/shared/models.py:56-79 | The tables and the outbox grow by exactly what `Fire` describes, and the returned error is `Fire`'s. Every status points at a stored alert. |

## Left out

- The Django ORM, `reversion` registration and migrations. Tables are sequences passed in or held by `AlertLog`. Primary keys are not allocated: an alert is identified by its position in the alert table.
- `send_mail` transport and `ALERT_EMAIL_FROM`. Sending is modelled as appending a `Mail` request (subject, body, recipients) to the outbox. Delivery failures are not modelled.
- `strftime` formatting of the fire time. The time is opaque text, supplied by the caller.
- Fire time: one time value per `fire_trigger` call. The source stamps each alert when it is created.
- `eval`: it is replaced by the closed comparison dispatch. What `eval` would do with quotes inside a value, with floats, or with arbitrary expressions in the stored value is not modelled.
- Triggers.TriggerFiresAsWritten: assumes that `eval` agrees with the dispatch for the five Python comparison tokens. It does not where the text is not a Python literal: a stored number with leading zeros (`3<08` is a `SyntaxError`), backslash escapes inside a quoted operand, embedded quotes, and floats.
- Triggers.TriggerFires: instance attributes are only text or integers. Booleans, `None`, dates and floats are not modelled. Against an integer attribute, every value that is not an integer literal is an error, whereas `eval` accepts some of them: a float (`3<2.5`), a value padded with spaces (`3< 4`), or an arithmetic expression (`3<1+1`).
- Text.ParseInt: does not accept the surrounding whitespace or the digit-group underscores that Python's `int()` allows, and it covers ASCII digits only.
- Text.Lower: lower-cases ASCII letters only; other Unicode case mappings are not modelled.
- Workflows.Workflow.GetTaskAtIndex, Workflows.Run.GetTaskAtIndex, Workflows.Run.HasValidInputs: the index is a `nat`, and so is `Run.currentTask`, although `current_task` is an `IntegerField` (lims/workflows/models.py:73) passed to `get_task_at_index` at line 126. Python's negative-index wrap-around is not modelled.
- `TriggerAlertStatus.user` is a many-to-many field. It is modelled as the single subscriber's id passed at creation.
- Nested firing: `fire_trigger` is a receiver for every model's `post_save` (lims/shared/models.py:55). Each `create` and `save()` of a `TriggerAlert` or `TriggerAlertStatus` at lines 61, 65, 69 and 70 therefore re-enters it with that record as the instance. Sets watching those two models would fire nested, twice per record. This nesting is not modelled: a call fires only for the instance it was given.
- Alerts.AlertLog.RaiseAlert: as written, `TriggerAlertStatus.objects.create(user=subscription.user, ...)` at lines 65-68 passes a value for the many-to-many field `user` (line 152) to the constructor. The Django 1.x this code targets rejects that, with `TypeError` (1.8) or `ValueError` (1.10 and 1.11). So every fired set with at least one subscription raises there, before its mail is sent. `StatusesFor`, `RaiseAlert` and `Fire` model the evidently intended fan-out instead, with the subscriber as the status's user.
- The run start/advance state machine, run locking, `DataEntry` and the other models of `lims/workflows/models.py`: they have no logic in this code.
- `__str__` methods, URL routing, the file-template view and the schema migration.
- Float fields and `CalculationFieldTemplate.calculation`: they are stored, not computed.

## Findings

| source | as written | input that shows it | evidently intended | confidence | as-written member | corrected member |
|---|---|---|---|---|---|---|
| lims/shared/models.py:102 | `=` is stored as the symbol of equality and spliced into the expression handed to `eval`. `a=b` is not a Python expression, so every `=` trigger on a present field raises `SyntaxError`. | `Trigger(field="status", operator="=", value="failed")` on an instance whose `status` is `"failed"`: `eval("'failed'='failed'")` | `=` tests equality, so this trigger is true | not executed | Triggers.FailedStatusCounterexample | Triggers.TextComparison |
| lims/shared/models.py:95-96 | `for field, value in replace_fields` iterates the dict's keys. Every key is longer than two characters, so unpacking the first one (`"model"` in insertion order) raises `ValueError` on every call. With `.items()`, the integer `instance.id` would still make `replace` raise. Through `fire_trigger` this is reached only once the status creation at line 65 is corrected (see `Alerts.AlertLog.RaiseAlert` under Left out). | any trigger set that fires and has a subscriber with `email` set | each `{key}` is replaced by its value, with the instance id written in decimal | not executed | Alerts.TemplateAsWrittenAlwaysRaises | Alerts.TemplateRenders |

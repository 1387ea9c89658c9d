# Automated datastore discovery: a Dafny model of the Lambda handlers

This project models the 14 AWS Lambda handlers of *automated datastore discovery with AWS Glue*. Together they find new data stores (S3 buckets, DynamoDB tables, RDS/Aurora clusters) and record each one in a DynamoDB tracker table. For each store they create a Glue Data Catalog entry and a crawler, then a PII-detection Glue job, workflow and trigger. They also report each store's tags to report tables, run DDL files against RDS clusters, and write the PII findings back into the catalog as column comments. The project proves properties of that model.

## How the handlers are modelled

- **Values and errors.** Decoded JSON and DynamoDB items are the datatype `Json.Value`. Truthiness follows Python: empty text, empty lists and dictionaries, zero, `None` and `False` are falsy. Every Python exception a handler can raise is a constructor of `Errors.Error`: `MalformedEvent`, `ValueError`, `MissingEnvironmentVariable`, `KeyError`, `IndexError`, `TypeError`, `AttributeError`, a `ClientError` code, or a bare `Exception`. A step either returns a value or raises one of these.
- **AWS calls.** Every boto3 call is a `Aws.Request`, grouped by service. The only state is `Aws.Provider`. It holds the log of calls made so far and a fixed oracle saying how the service answers the i-th call: an HTTP status, or a rejection with its ClientError code. Payloads the handlers read, such as bucket tags, listed secrets, described clusters and the returned Glue table, are handler parameters.
- **Plans.** For each handler there is a pure *plan*: the calls it makes, in order, when every call goes through, and the error it raises without a call. Each handler is a `method` that makes its calls on the provider. Its `ensures` states `Carried(...)`: the new log is the plan followed up to the first call whose reply fails its check, and the result is that call's error, the plan's own error, or success. Lemmas in `Aws` compose plans (`Then`, `Sequence`). The lemmas beside each handler say what its plan does and does not send, create, write or require.
- **Queues.** What a handler puts on an SQS queue is `Aws.Messages`: a view of the call log keeping the bodies in order.
- **Tracker table.** The tracker table is the class `Tracker.TrackerTable`. Its `items` map record ids to records. `Select` answers a PartiQL selection, `ConditionalPut` the `attribute_not_exists(id)` insert, and `SetCatalogEntry`/`SetGlueJobCreated` the stage updates. For each of the four handlers that write it (glue-tracking-initial, rds-glue-tracking-initial, catalog-creator-s3 and s3-glue-job-creator), the table after a run equals `Tracker.Effect`, a fold of the accepted tracker writes in the calls that run logged.

## The handlers

- **dynamodb-trigger, rds-ddl-trigger, s3-trigger** validate an EventBridge event. Both dynamodb-trigger and s3-trigger check the source, the event name and the detail fields, with falsy values treated as missing. The s3-trigger then routes the bucket by its tags: one custom-entity message per `glue-custom-entity=true` tag, and one tracking message when some tag is `gdpr-scan=true`. The dynamodb-trigger sends a tracking message unless the table's name is in the comma-separated exception list EXCEPTION_TABLE_NAMES. The rds-ddl-trigger forwards the event to two queues in order.
- **glue-tracking-initial, rds-glue-tracking-initial** take one SQS message. They delete it from the queue when it has a receipt, build the tracker record, and insert it under a condition. That insert never replaces an existing record, and a ConditionalCheckFailedException counts as success.
- **catalog-creator-s3, s3-glue-job-creator** advance the S3 records through the two stages. The first creates the catalog table, the crawler and the catalog marks. The second creates the Glue job, the workflow, the trigger and the job mark. Records are handled in scan order, and the first failure ends the run. The model proves several things here: the two stage selections are disjoint; a record with a job is final; a complete run leaves nothing pending; and a re-run does nothing. In s3-glue-job-creator the check of GLUE_SCRIPT_BUCKET at lambda/s3-glue-job-creator/app.py:269-271 re-tests the assets bucket. This is modelled as written: `ScriptBucketNotRequired` and `ScriptBucketUnset` state what follows.
- **s3-tag-report, ddb-tag-report, rds-tag-report** turn each selected record's tags into one report row. Only the tags whose key is exactly one of the six required keys are kept, and a fresh id, the record's catalog table name and a time stamp are added. The ddb and rds handlers require TAG_REPORT_TABLE_NAME, but write their rows to the literal table `tagCaptureTable` whatever it says. This is modelled as written.
- **rds-ddl-init, rds-ddl-change** find a cluster's secret by first match over Secrets Manager and split a DDL file at `;`. They then run each non-blank stripped statement in order through the RDS Data API. In rds-ddl-change the account-inference fallback is unreachable, because an empty cluster list has already been refused. `InferenceUnreachable` and `NeverInfers` prove this, and the handler model omits that branch.
- **rds-glue-initial** searches the whole secret list: the Name it returns is that of the last listed secret. From the secret it builds the JDBC connection, one crawler per schema, and the schema skips.
- **pii-report**: `update_catalog_table` lower-cases the PII column names and keeps the last entity types per name. It comments the matching catalog columns with `Sensitive Data Element | ...`, truncated to 255 characters, and strips the seven read-only properties before update_table. The per-table loop keeps the latest scan of each catalog table.

## Model

| member | source | states |
|---|---|---|
| Json.Get | lambda/glue-tracking-initial/app.py:59 | `d.get(k)` succeeds exactly on dictionaries and yields the stored value, or None for an absent key |
| Json.Key | lambda/pii-report/app.py:165 | `d[k]` succeeds exactly when d is a dictionary holding k, yields that value, and raises KeyError(k) for an absent key |
| Json.At | lambda/rds-tag-report/app.py:209 | `xs[i]` succeeds exactly for an in-range index of a list and raises IndexError past the end |
| Json.Head | lambda/rds-glue-initial/app.py:227-232 | `v[0]` raises IndexError exactly on an empty list or empty string, yields the first item of a non-empty list, and succeeds exactly on truthy lists and strings |
| Json.AsText | lambda/rds-ddl-init/app.py:271 | a value used as text must be a string, and its characters are used unchanged |
| Json.NatToDecimal | lambda/rds-glue-initial/app.py:197 | `str(n)` of a natural number is a non-empty string of decimal digits |
| Json.NatToDecimalRoundTrip | lambda/rds-glue-initial/app.py:197 | reading back the digits of `str(n)` gives n |
| Text.Lower | lambda/glue-tracking-initial/app.py:94 | `lower()` keeps the length and maps every character through the ASCII lower-casing |
| Text.ReplaceCharPointwise | lambda/catalog-creator-s3/app.py:247-248 | replacing one character by another changes exactly the positions holding it and keeps the length |
| Text.ReplaceAbsent | lambda/rds-ddl-change/app.py:229 | `s.replace(p, r)` leaves a string without an occurrence of p unchanged |
| Text.FindFirst | lambda/rds-tag-report/app.py:204 | the position found is an occurrence of the pattern and no earlier position is; None exactly when the pattern does not occur |
| Text.Split | lambda/dynamodb-trigger/app.py:148 | `s.split(sep)` always yields at least one piece, and no piece contains the separator |
| Text.SplitHead | lambda/rds-tag-report/app.py:204 | `s.split(sep)[0]` is the text before the first occurrence of sep (or all of s), and is followed in s by that occurrence or the end |
| Text.SplitSecond | lambda/rds-tag-report/app.py:204 | `s.split(sep)[1]` exists exactly when sep occurs in s, and is the first piece of what follows that occurrence |
| Text.SplitJoin | lambda/dynamodb-trigger/app.py:148 | joining the pieces of a split with the same separator gives back the string |
| Text.SplitAbsent | lambda/rds-ddl-change/app.py:279 | splitting a string without the separator yields that string alone |
| Text.Strip | lambda/rds-ddl-change/app.py:282 | `s.strip(chars)` is s with the longest leading and trailing runs of characters in chars removed: what is dropped at either end is all in chars, the part kept neither begins nor ends with one, and it is empty exactly when every character of s is in chars |
| Text.StripKeeps | lambda/rds-ddl-change/app.py:282 | stripping puts no character into a string that did not hold it |
| Text.StripSuffixIn | lambda/rds-ddl-change/app.py:282 | every character `strip` drops from the right end, after the left end is gone, is in chars |
| Text.LeadingIn | lambda/rds-ddl-change/app.py:282 | the characters `strip` drops on the left are in chars, and the first one kept is not |
| Text.TrailingIn | lambda/rds-ddl-change/app.py:282 | the characters `strip` drops on the right are in chars, and the last one kept is not |
| Text.StripBothEnds | lambda/rds-ddl-change/app.py:282 | dropping the left end and then the right end leaves a part of s that is empty exactly when s holds only stripped characters, and otherwise begins and ends with a kept character |
| Validation.CheckMissingField | lambda/dynamodb-trigger/app.py:45-57 | passes exactly when the dictionary maps the key to a truthy value; otherwise MalformedEvent |
| Validation.ValidateField | lambda/dynamodb-trigger/app.py:60-75 | passes exactly when the key is present, truthy and equal to the expected value; a missing field raises MalformedEvent before a mismatch raises ValueError |
| Validation.ValidateFalsyNeverPasses | lambda/dynamodb-trigger/app.py:60-75 | validating against a falsy expected value always fails |
| Validation.ExtractDetail | lambda/dynamodb-trigger/app.py:78-99 | succeeds exactly when source, detail, eventName and the detail key all check out, yields `detail[key]`, and reports a bad source with `_validate_field`'s own error |
| Validation.RequiredAs | lambda/rds-ddl-change/app.py:219-222 | a setting is read exactly when present and non-empty; otherwise MissingEnvironmentVariable naming the reported variable |
| Validation.Required | lambda/dynamodb-trigger/app.py:140-143 | a setting is read exactly when present and non-empty; otherwise MissingEnvironmentVariable naming it |
| Aws.Provider.Invoke | lambda/dynamodb-trigger/app.py:112-115 | every call is appended to the log in order and is answered by the provider's answer for its position |
| Aws.Call | lambda/dynamodb-trigger/app.py:112-126 | a call is logged and its reply is judged by the check used for its kind: a deletion by its status alone, an SQL statement by `_execute_sql`, where a reply without a status is a KeyError |
| Aws.CheckResponse | lambda/catalog-creator-s3/app.py:94-95 | the response passes exactly on status 200; no status is MalformedEvent, another status ValueError, a rejection its ClientError |
| Aws.CheckSent | lambda/dynamodb-trigger/app.py:117-126 | a sent message passes exactly on status 200; no status is MalformedEvent, any other status raises Exception |
| Aws.CheckStatus | lambda/glue-tracking-initial/app.py:174-182 | a deletion passes exactly on status 200; any other status, a missing one included, raises Exception |
| Aws.CheckExecuted | lambda/rds-ddl-init/app.py:243-248 | an SQL statement passes exactly on status 200; a reply without a status raises KeyError("HTTPStatusCode"), another status raises Exception, and a refusal is its ClientError |
| Aws.CheckAnswered | lambda/rds-ddl-init/app.py:167-174 | a call whose status is never read fails only when the service rejects it |
| Aws.CheckTagging | lambda/s3-trigger/app.py:151-167 | a tagging read passes exactly on status 200 or on NoSuchTagSet; no status is MalformedEvent, any other failure raises Exception |
| Aws.CheckConditionalPut | lambda/glue-tracking-initial/app.py:221-235 | a conditional put passes on any response and on ConditionalCheckFailedException; any other rejection raises Exception |
| Aws.Then | lambda/glue-tracking-initial/app.py:193-202 | a step that raised ends the handler there; otherwise the calls of both steps are made in order and the second step's error is raised |
| SqsEvent.First | lambda/glue-tracking-initial/app.py:63-66 | `records[0]` of a truthy value is the first item of a list or the first character of a string; a dictionary raises KeyError and a number or boolean TypeError |
| SqsEvent.MessageAttributesOf | lambda/glue-tracking-initial/app.py:120-151 | an event without records is not an SQS message; otherwise the first record must carry a truthy receiptHandle and messageId, which are returned, and MalformedEvent is raised when either is falsy; a dictionary `Records` raises KeyError, a number TypeError, and a first record that is not a dictionary AttributeError |
| SqsEvent.MessageBody | lambda/glue-tracking-initial/app.py:83-117 | a test event is its own body; otherwise the body is the JSON decoding of the first record's non-empty `body`; a non-text `test_event` raises AttributeError; an event without records, or whose first record is not a dictionary, raises MalformedEvent; a dictionary `Records` raises KeyError and a number TypeError |
| SqsEvent.TestEventBypassesQueue | lambda/glue-tracking-initial/app.py:193-202 | an event without records deletes nothing, and only a test event then has a body |
| SqsEvent.ReceiveOnlyDeletes | lambda/glue-tracking-initial/app.py:154-183 | the prologue makes at most one call, the deletion of the received message |
| SqsEvent.ReceiveCases | lambda/glue-tracking-initial/app.py:193-202 | a bad receipt or a missing queue URL raises without a call; an event without records goes straight to its body; otherwise the message is deleted from SQS_QUEUE_URL and only an accepted deletion goes on to decode the body |
| SqsEvent.Receive | lambda/glue-tracking-initial/app.py:154-202 | the prologue carries out its plan: delete the message when there is one, then decode the body |
| TrackerRecords.Present | lambda/s3-glue-job-creator/app.py:283-286 | `obj[key]` on a tracker item yields the attribute when the item has it and raises KeyError(key) otherwise |
| TrackerRecords.WithCatalogEntry | lambda/catalog-creator-s3/app.py:119-145 | marking the catalog entry keeps the source's identity and flags, records the catalog table and database, keeps the staging invariant, and moves a catalog-pending record to job-pending |
| TrackerRecords.WithGlueJob | lambda/s3-glue-job-creator/app.py:146-166 | marking the job created keeps the source and catalog fields, and takes the record out of both stage selections |
| TrackerRecords.JobCreatedIsFinal | lambda/s3-glue-job-creator/app.py:21 | a record with a job is never selected by either stage again, even after a catalog write |
| TrackerRecords.StagesDisjoint | lambda/catalog-creator-s3/app.py:10 | the catalog-pending and job-pending selections never overlap, and job-pending records are catalogued S3 records |
| Tracker.EffectOfOthers | lambda/glue-tracking-initial/app.py:222-228 | calls other than tracker writes leave the tracker table unchanged |
| Tracker.CarriedWritesNothing | lambda/catalog-creator-s3/app.py:83-98 | carrying out a plan without tracker writes leaves the tracker table unchanged |
| Tracker.EffectAppend | lambda/catalog-creator-s3/app.py:119-145 | the effect of two runs of calls is the second applied to what the first left |
| Tracker.EffectNone | lambda/catalog-creator-s3/app.py:119-145 | a run that has made no call yet has not changed the table |
| Tracker.EffectCall | lambda/catalog-creator-s3/app.py:119-145 | one more call changes the table by that call's step alone |
| Tracker.EffectThen | lambda/catalog-creator-s3/app.py:119-145 | the effect from a point of the log up to its end passes through any later point: first the part up to it, then the rest |
| Tracker.SelectedNothing | lambda/catalog-creator-s3/app.py:83-98 | a selection that no stored record matches yields no items |
| Tracker.TrackerTable.Select | lambda/catalog-creator-s3/app.py:83-98 | a PartiQL selection yields every stored record that matches it, each once, and nothing else |
| Tracker.TrackerTable.ConditionalPut | lambda/glue-tracking-initial/app.py:221-235 | the record is stored only when the service answers and no record with its id exists; a ConditionalCheckFailedException is swallowed and any other rejection raises Exception |
| Tracker.TrackerTable.SetCatalogEntry | lambda/catalog-creator-s3/app.py:119-145 | an accepted update marks the record catalogued with its table and database; the reply is then status-checked |
| Tracker.TrackerTable.SetGlueJobCreated | lambda/s3-glue-job-creator/app.py:146-166 | an accepted update marks a catalogued record's job created; the reply is then status-checked |
| DynamoDbTrigger.ExtractValidEvent | lambda/dynamodb-trigger/app.py:78-99 | succeeds exactly on an aws.dynamodb CreateTable event whose detail carries responseElements, and yields those responseElements |
| DynamoDbTrigger.ExceptionTables | lambda/dynamodb-trigger/app.py:145-148 | no setting means no exceptions; otherwise the comma-free names that join back to the setting |
| DynamoDbTrigger.TableName | lambda/dynamodb-trigger/app.py:150-152 | succeeds exactly when tableDescription and its tableName are present and truthy, yielding that name |
| DynamoDbTrigger.TrackedUnlessExcepted | lambda/dynamodb-trigger/app.py:154-166 | a valid event with a configured queue sends `{data_source_type: "dynamodb", data_source_attrs: responseElements}` to the tracking queue exactly when the table is not an exception, and sends nothing otherwise |
| DynamoDbTrigger.NeverExcepted | lambda/dynamodb-trigger/app.py:145-154 | without an exception list, or for a name containing a comma, the table is always sent |
| DynamoDbTrigger.QueueCheckedFirst | lambda/dynamodb-trigger/app.py:137-143 | a valid event with no tracking queue setting raises MissingEnvironmentVariable before the table name is read, and nothing is sent |
| DynamoDbTrigger.Handle | lambda/dynamodb-trigger/app.py:129-168 | the handler carries out its plan: validate, read the settings, then send the message unless the table is excepted |
| RdsDdlTrigger.ExtractValidEvent | lambda/rds-ddl-trigger/app.py:79-100 | succeeds exactly on an aws.rds CreateDBCluster event whose detail carries responseElements, and yields those responseElements |
| RdsDdlTrigger.BothQueuesGetResponseElements | lambda/rds-ddl-trigger/app.py:152-164 | with both queues configured, exactly two messages are sent, and each queue receives the unwrapped responseElements once |
| RdsDdlTrigger.ConfigurationFirst | lambda/rds-ddl-trigger/app.py:142-150 | a missing queue setting raises MissingEnvironmentVariable for the first missing one before anything is sent |
| RdsDdlTrigger.DdlFailureSkipsGlue | lambda/rds-ddl-trigger/app.py:153-164 | a failed send to the DDL queue raises before the Glue initial queue is written |
| RdsDdlTrigger.Handle | lambda/rds-ddl-trigger/app.py:130-166 | the handler carries out its plan: validate, read both settings, send to the DDL queue and then to the Glue initial queue |
| S3Trigger.ExtractValidEvent | lambda/s3-trigger/app.py:86-111 | succeeds exactly on an aws.s3 CreateBucket event whose requestParameters carry a truthy bucketName, and yields those requestParameters |
| S3Trigger.CustomSendsPrefix | lambda/s3-trigger/app.py:218-227 | the custom-entity sends for the first i tags begin the sends for all tags |
| S3Trigger.CustomSendsMessages | lambda/s3-trigger/app.py:218-227 | the custom-entity queue receives the message once per `glue-custom-entity=true` tag, and no other queue receives anything from the loop |
| S3Trigger.RoutingMessages | lambda/s3-trigger/app.py:217-239 | with two distinct queues, the tracking queue receives the message exactly once when some tag is `gdpr-scan=true` and never otherwise, and the custom-entity queue receives it once per custom-entity tag whether or not the scan tag is there |
| S3Trigger.HandlerRouting | lambda/s3-trigger/app.py:151-239 | on a valid event with both queues set to distinct URLs and a tagged bucket, the tag lookup comes first, the tracking queue receives the message exactly once when some tag is `gdpr-scan=true`, and the custom-entity queue once per custom-entity tag |
| S3Trigger.CustomSendsCarryMessage | lambda/s3-trigger/app.py:211-227 | every custom-entity send carries `{data_source_type: "s3", data_source_attrs: requestParameters}` |
| S3Trigger.HandlerMessages | lambda/s3-trigger/app.py:211-239 | every message the handler sends, to either queue, is `{data_source_type: "s3", data_source_attrs: requestParameters}` |
| S3Trigger.ConfigurationFirst | lambda/s3-trigger/app.py:190-198 | a missing queue setting raises MissingEnvironmentVariable for the first missing one before the tags are read |
| S3Trigger.UntaggedBucketSendsNothing | lambda/s3-trigger/app.py:151-156 | a bucket answered with NoSuchTagSet or an empty TagSet puts nothing on either queue; the tag lookup is the only call |
| S3Trigger.TagStep | lambda/s3-trigger/app.py:218-227 | one more tag adds at most its own custom-entity send and its own scan match |
| S3Trigger.FailedCustomSend | lambda/s3-trigger/app.py:224-227 | a custom-entity send that fails ends the handler with its error |
| S3Trigger.Handle | lambda/s3-trigger/app.py:179-242 | the handler carries out its plan: validate, read both settings, look up the tags, then route the bucket by its tags |
| S3Trigger.LookupAndRoute | lambda/s3-trigger/app.py:200-239 | the tag lookup is made first; a failed lookup ends the handler, an untagged bucket (NoSuchTagSet or no tags) ends it with nothing sent, and a tagged one is routed by its tags |
| S3Trigger.Route | lambda/s3-trigger/app.py:217-239 | the tag loop is followed by the tracking send exactly when some tag asks for a scan |
| S3Trigger.SendCustom | lambda/s3-trigger/app.py:217-227 | the loop makes one custom-entity send per custom-entity tag, in tag order, and reports whether some tag asks for a scan |
| GlueTrackingInitial.InitialRecord | lambda/glue-tracking-initial/app.py:211-219 | the new item has the drawn id, both stage flags down, no catalog names, and the body's data_source_type and data_source_attrs; a body lacking either raises KeyError for the first missing one |
| GlueTrackingInitial.InitialRecordStaged | lambda/glue-tracking-initial/app.py:213-219 | a new item is staged and is waiting for a catalog entry exactly when it describes an S3 source; no other selection picks it |
| GlueTrackingInitial.DeletedBeforeTableChecked | lambda/glue-tracking-initial/app.py:193-208 | the message is deleted before the table setting is read, so without GLUE_TRACKER_TABLE_NAME it is lost |
| GlueTrackingInitial.StoredAfterRun | lambda/glue-tracking-initial/app.py:204-235 | a run that ends without error after its put was answered leaves an item under the drawn id, the old one if it existed, and changes no other item |
| GlueTrackingInitial.ComposedFailure | lambda/glue-tracking-initial/app.py:193-202 | a prologue without a body ends the handler with its error and leaves the tracker table untouched |
| GlueTrackingInitial.ComposedSuccess | lambda/glue-tracking-initial/app.py:193-235 | the prologue and the write step, each carried out, carry out the handler, and only the write step changes the table |
| GlueTrackingInitial.Handle | lambda/glue-tracking-initial/app.py:185-237 | the handler carries out its plan, and the tracker table changes exactly by the effect of its calls |
| GlueTrackingInitial.Initialise | lambda/glue-tracking-initial/app.py:204-235 | requires the table setting, builds the item, and makes one conditional put whose effect is the table's new state |
| RdsGlueTrackingInitial.ExtractValidEvent | lambda/rds-glue-tracking-initial/app.py:81-102 | succeeds exactly on an aws.glue CreateTable event whose detail carries requestParameters, and yields those requestParameters |
| RdsGlueTrackingInitial.SourceAttrs | lambda/rds-glue-tracking-initial/app.py:135-138 | the source attributes are the table's parameters when they are truthy, and `{}` otherwise |
| RdsGlueTrackingInitial.CatalogRecord | lambda/rds-glue-tracking-initial/app.py:133-148 | the item is an rds source with the drawn id, catalogued and without a job, naming the table and its database; a table input without name raises KeyError("name") |
| RdsGlueTrackingInitial.CatalogRecordSelection | lambda/rds-glue-tracking-initial/app.py:140-148 | the new item is staged and selected by the RDS tag report, and never by the S3 stage handlers or the S3 report |
| RdsGlueTrackingInitial.CatalogDbCheckedFirst | lambda/rds-glue-tracking-initial/app.py:113-116 | without CATALOG_DB_NAME the handler raises MissingEnvironmentVariable before looking at the event |
| RdsGlueTrackingInitial.OtherDatabasesIgnored | lambda/rds-glue-tracking-initial/app.py:120-123 | a table of any other database ends the handler without a call or error, whether or not the tracker table is configured |
| RdsGlueTrackingInitial.AtMostOnePut | lambda/rds-glue-tracking-initial/app.py:150-165 | at most one call is made: a put under the drawn id into the configured tracker table, of an item the RDS report selects |
| RdsGlueTrackingInitial.Handle | lambda/rds-glue-tracking-initial/app.py:105-167 | the handler carries out its plan, and the tracker table changes exactly by the effect of its conditional put |
| CatalogCreatorS3.BucketName | lambda/catalog-creator-s3/app.py:245-248 | the bucket name is read with `[...]` from the source attributes and must be a string; an absent name raises KeyError("bucketName") |
| CatalogCreatorS3.CatalogTableNameChars | lambda/catalog-creator-s3/app.py:246-249 | the catalog table name is the database name, an underscore, then the bucket name with each `-` and `.` turned into `_` and every other character kept |
| CatalogCreatorS3.RecordPlans | lambda/catalog-creator-s3/app.py:244-276 | one plan per selected record, in scan order |
| CatalogCreatorS3.AdvancedSnoc | lambda/catalog-creator-s3/app.py:244-276 | cataloguing one more record applies its update to the table the earlier ones left |
| CatalogCreatorS3.AdvancedAt | lambda/catalog-creator-s3/app.py:119-145 | cataloguing changes no record's source, lowers no flag and creates no job; a record not processed is unchanged, and a processed one is catalogued under the database and no longer pending |
| CatalogCreatorS3.NothingPending | lambda/catalog-creator-s3/app.py:244-276 | after every selected record is catalogued, no record in the tracker is waiting for a catalog entry |
| CatalogCreatorS3.RerunDoesNothing | lambda/catalog-creator-s3/app.py:219-227 | with nothing pending, a re-run makes only the scan: nothing is created or updated |
| CatalogCreatorS3.EmptyScanReadsNoSettings | lambda/catalog-creator-s3/app.py:224-237 | an empty scan returns before GLUE_ROLE_ARN and DATA_CATALOG_DB_NAME are read, so it succeeds without them |
| CatalogCreatorS3.CrawlerCoversTable | lambda/catalog-creator-s3/app.py:148-202 | a record's table lies at the bucket's root, its crawler is named `<table>_crawler` and crawls exactly that table of the database, and the tracker update names the same table and database |
| CatalogCreatorS3.CatalogueOne | lambda/catalog-creator-s3/app.py:245-276 | one record: create the table, then the crawler, then mark the record; the tracker changes only when all three went through, and the table afterwards is the accepted tracker updates among this run's logged calls, applied in order (`Tracker.Effect`) |
| CatalogCreatorS3.CreateAndMark | lambda/catalog-creator-s3/app.py:251-276 | the three calls are made in order, each only after the one before was accepted, an accepted update marks the record catalogued, and the table afterwards is the accepted tracker updates among this run's logged calls, applied in order (`Tracker.Effect`) |
| CatalogCreatorS3.CatalogueAll | lambda/catalog-creator-s3/app.py:239-276 | the account is looked up, then the records are processed in scan order until the first failure; the table holds the updates of exactly the records completed, a failed run completed fewer than all of them, and the table afterwards is the accepted tracker updates among this run's logged calls, applied in order (`Tracker.Effect`) |
| CatalogCreatorS3.CatalogueRecords | lambda/catalog-creator-s3/app.py:244-276 | the records are processed in scan order until the first failure; the table holds the updates of exactly the records completed, all of them on success and fewer on failure, and the table afterwards is the accepted tracker updates among this run's logged calls, applied in order (`Tracker.Effect`) |
| CatalogCreatorS3.CataloguedStepped | lambda/catalog-creator-s3/app.py:244-276 | one more record carried out extends the run by one record, ending there if it failed, and the table by its update, which stays the effect of the logged calls |
| CatalogCreatorS3.Handle | lambda/catalog-creator-s3/app.py:205-283 | the handler carries out its plan over the pending records it selected; a successful run catalogues them all, after which no record is pending; a failed run completed fewer than all of them; the table afterwards is the accepted tracker updates among this run's logged calls, applied in order (`Tracker.Effect`) |
| CatalogCreatorS3.CatalogueSelected | lambda/catalog-creator-s3/app.py:224-276 | after the scan: stop on an empty selection, require the role and the database, then catalogue the records; a failed run completed fewer than all of them, and the table afterwards is the accepted tracker updates among this run's logged calls, applied in order (`Tracker.Effect`) |
| CatalogCreatorS3.RecordsNamed | lambda/catalog-creator-s3/app.py:244-249 | a run over the records that raised nothing found every record's bucket name |
| CatalogCreatorS3.SelectedEmptyPending | lambda/catalog-creator-s3/app.py:224-227 | an empty scan means no record was waiting for a catalog entry |
| S3GlueJobCreator.Settings | lambda/s3-glue-job-creator/app.py:261-275 | after a non-empty scan, PII_OUTPUT_TABLE_NAME, GLUE_ASSETS_BUCKET and GLUE_ROLE_ARN are required in that order and the first missing one is raised; GLUE_SCRIPT_BUCKET is taken as it is |
| S3GlueJobCreator.ScriptBucketNotRequired | lambda/s3-glue-job-creator/app.py:269-271 | whether GLUE_SCRIPT_BUCKET is set never decides whether the settings are found, since its check re-tests the assets bucket |
| S3GlueJobCreator.ScriptBucketUnset | lambda/s3-glue-job-creator/app.py:269-271 | with GLUE_SCRIPT_BUCKET unset, every job's script is looked for at `s3://None/s3-source-script.py` |
| S3GlueJobCreator.Region | lambda/s3-glue-job-creator/app.py:288-292 | the region is the bucket's LocationConstraint; a KeyError at either step falls back to AWS_REGION, else `noregion`; any other error is raised |
| S3GlueJobCreator.SourceOfFields | lambda/s3-glue-job-creator/app.py:280-304 | a record's fields are read exactly when it is complete, they are its bucket name, catalog table and database, region and host, and a missing bucket name is reported first |
| S3GlueJobCreator.ArgumentsExtendDefaults | lambda/s3-glue-job-creator/app.py:198-207 | a job's arguments are the seven defaults, none overridden, plus eight of its own: the source's bucket, catalog table and database, host and region, the output table, and Spark logs and temporary files in the assets bucket |
| S3GlueJobCreator.RecordPlans | lambda/s3-glue-job-creator/app.py:279-338 | one plan per selected record, in scan order |
| S3GlueJobCreator.TriggerStartsJob | lambda/s3-glue-job-creator/app.py:293-328 | a record's trigger belongs to its workflow and starts its job; the job, workflow and trigger names differ by prefix and share the `{region}-{table}` suffix |
| S3GlueJobCreator.JobNamesDistinct | lambda/s3-glue-job-creator/app.py:293 | within a region, two sources get the same job name exactly when their catalog tables render alike |
| S3GlueJobCreator.EmptyScanStops | lambda/s3-glue-job-creator/app.py:254-257 | an empty scan ends the handler: no other setting is read and nothing is created |
| S3GlueJobCreator.JobbedSnoc | lambda/s3-glue-job-creator/app.py:279-338 | one more record applies its update to the table the earlier records left |
| S3GlueJobCreator.JobbedAt | lambda/s3-glue-job-creator/app.py:146-166 | making jobs changes no record's source or catalog entry and lowers no flag; a record not processed is unchanged, and a processed one has its job and is pending nowhere |
| S3GlueJobCreator.NothingPending | lambda/s3-glue-job-creator/app.py:279-338 | after every selected record gets its job, no record is waiting for one |
| S3GlueJobCreator.OthersUntouched | lambda/s3-glue-job-creator/app.py:21 | a record the scan did not select, whether still waiting for its catalog entry or already with a job, is left exactly as it was |
| S3GlueJobCreator.RerunDoesNothing | lambda/s3-glue-job-creator/app.py:249-257 | with nothing waiting for a job, a re-run makes only the scan |
| S3GlueJobCreator.CreateJobAndMark | lambda/s3-glue-job-creator/app.py:294-338 | the job, workflow, trigger and tracker update are made in order, each only after the one before was accepted, an accepted update marks the record's job created, and the table afterwards is the accepted tracker updates among this run's logged calls, applied in order (`Tracker.Effect`) |
| S3GlueJobCreator.CreateResources | lambda/s3-glue-job-creator/app.py:294-330 | the job, workflow and trigger are created in that order, each only after the one before was accepted |
| S3GlueJobCreator.JobOne | lambda/s3-glue-job-creator/app.py:279-338 | one record: read its fields, then make its job, workflow and trigger and mark it; the tracker changes only when all four calls went through, and the table afterwards is the accepted tracker updates among this run's logged calls, applied in order (`Tracker.Effect`) |
| S3GlueJobCreator.JobAll | lambda/s3-glue-job-creator/app.py:279-338 | the records are processed in scan order until the first failure; the table holds the updates of exactly the records completed, a failed run completed fewer than all of them, and the table afterwards is the accepted tracker updates among this run's logged calls, applied in order (`Tracker.Effect`) |
| S3GlueJobCreator.JobStepped | lambda/s3-glue-job-creator/app.py:279-338 | one more record carried out extends the run by one record, ending there if it failed, and the table by its update, which stays the effect of the logged calls |
| S3GlueJobCreator.RecordsComplete | lambda/s3-glue-job-creator/app.py:280-304 | a run over the records that raised nothing found every record complete |
| S3GlueJobCreator.JobSelected | lambda/s3-glue-job-creator/app.py:254-338 | after the scan: stop on an empty selection, read the settings, then give the records their jobs; a failed run completed fewer than all of them, and the table afterwards is the accepted tracker updates among this run's logged calls, applied in order (`Tracker.Effect`) |
| S3GlueJobCreator.SelectedNothingPending | lambda/s3-glue-job-creator/app.py:254-257 | an empty scan means no record was waiting for a job |
| S3GlueJobCreator.Handle | lambda/s3-glue-job-creator/app.py:235-344 | the handler carries out its plan over the records it selected; a successful run gives every one its job, after which no record is waiting for one; a failed run completed fewer than all of them; the table afterwards is the accepted tracker updates among this run's logged calls, applied in order (`Tracker.Effect`) |
| S3GlueJobCreator.ScanAndJob | lambda/s3-glue-job-creator/app.py:247-338 | from the scan of the tracker on, the handler carries out its plan over the records the scan selected; a failed run completed fewer than all of them, and the table afterwards is the accepted tracker updates among this run's logged calls, applied in order (`Tracker.Effect`) |
| S3GlueJobCreator.SelectAndJob | lambda/s3-glue-job-creator/app.py:254-338 | the records waiting for a job are selected and given their jobs in scan order; a failed run completed fewer than all of them, and the table afterwards is the accepted tracker updates among this run's logged calls, applied in order (`Tracker.Effect`) |
| S3GlueJobCreator.ScanFailed | lambda/s3-glue-job-creator/app.py:110-125 | a rejected scan ends the run with its error and leaves the table as it was |
| S3GlueJobCreator.ScanProceeded | lambda/s3-glue-job-creator/app.py:110-125 | an accepted scan, which writes nothing, followed by the rest of the run carries out the scan and then the rest, with the same effect on the table |
| TagReport.FilteredKeys | lambda/s3-tag-report/app.py:203-207 | a key is in `tag_obj` exactly when it is a required key and some tag carries it |
| TagReport.FilteredLast | lambda/s3-tag-report/app.py:205-207 | a kept key holds the value of the last tag carrying it, since a later duplicate overwrites an earlier one |
| TagReport.FilteredEmpty | lambda/s3-tag-report/app.py:209-211 | no row is due exactly when no tag has a required key |
| TagReport.FilterTags | lambda/s3-tag-report/app.py:203-207 | the loop builds the filtered tag map, and its keys are all required keys |
| TagReport.RowContents | lambda/s3-tag-report/app.py:214-216 | a row holds exactly the kept tags plus id, data_catalog_table_name and time_stamp, and no kept tag is overwritten by them |
| TagReport.ReportRow | lambda/s3-tag-report/app.py:196-225 | at most one row per record, written exactly when the source is tagged, its catalog table name is recorded and some tag is required; an untagged source is skipped before the name is read, and a missing name raises KeyError("data_catalog_table_name") |
| TagReport.ReportTags | lambda/s3-tag-report/app.py:196-225 | a record's turn after its tags are known carries out its report plan |
| TagReport.Settings | lambda/s3-tag-report/app.py:168-174 | DDB_GLUE_TRACKER_TABLE_NAME and then TAG_REPORT_TABLE_NAME are required, and the first missing one is raised |
| S3TagReport.Reports | lambda/s3-tag-report/app.py:191-225 | one turn per selected record, in scan order, each using the reply its own lookup got |
| S3TagReport.UntaggedSkipped | lambda/s3-tag-report/app.py:195-198 | a bucket without tags, whether rejected with NoSuchTagSet or answered no TagSet, makes its lookup and nothing else |
| S3TagReport.RecordCalls | lambda/s3-tag-report/app.py:191-225 | a record's turn makes its tag lookup and at most one write, a row of the configured tag table |
| S3TagReport.ReadsTrackerOnly | lambda/s3-tag-report/app.py:176-225 | the handler writes nothing to the tracker table, and every row goes to TAG_REPORT_TABLE_NAME |
| S3TagReport.SettingsFirst | lambda/s3-tag-report/app.py:168-186 | both table names are required before the scan, and an empty scan ends the handler with nothing written |
| S3TagReport.AnsweredSnoc | lambda/s3-tag-report/app.py:195 | the next record's lookup, when it made one, extends the recorded replies by its answer |
| S3TagReport.ReportOne | lambda/s3-tag-report/app.py:192-225 | a record's turn carries out its plan, and its lookup is the first call it makes |
| S3TagReport.ReportStepped | lambda/s3-tag-report/app.py:191-225 | one more record carried out extends the run by one record, ending there if it failed |
| S3TagReport.ReportAdvanced | lambda/s3-tag-report/app.py:191-225 | the loop's step: the run is one record further, and its reply is recorded when it made a lookup |
| S3TagReport.ReportAll | lambda/s3-tag-report/app.py:191-225 | the records are reported in scan order until the first failure, each lookup's reply recorded |
| S3TagReport.Handle | lambda/s3-tag-report/app.py:160-231 | the handler selects every catalogued S3 source once and carries out its plan over them; the tracker table is left as it is |
| DdbTagReport.TableArn | lambda/ddb-tag-report/app.py:172-173 | the ARN is found exactly when the record's attributes hold a tableDescription carrying both tableName and tableArn, and it is that tableArn; a missing tableDescription or tableName raises its KeyError first |
| DdbTagReport.RecordWritesRow | lambda/ddb-tag-report/app.py:177-208 | a record's turn lists its table's tags first and writes at most one row after, exactly when the table is tagged, the catalog table name is recorded and some tag is required; that row holds the required tags, the id, the name and the time stamp |
| DdbTagReport.RecordCalls | lambda/ddb-tag-report/app.py:171-208 | a record's turn makes only a tag listing and rows of tagCaptureTable |
| DdbTagReport.ReadsTrackerOnly | lambda/ddb-tag-report/app.py:159-208 | the handler writes nothing to the tracker table, and every row goes to tagCaptureTable whatever TAG_REPORT_TABLE_NAME says |
| DdbTagReport.SettingsFirst | lambda/ddb-tag-report/app.py:149-167 | both table names are required before the scan, and an empty scan ends the handler with nothing written |
| DdbTagReport.ReportOne | lambda/ddb-tag-report/app.py:172-208 | a record's turn carries out its plan: the ARN, the tag listing, then the report |
| DdbTagReport.ReportAll | lambda/ddb-tag-report/app.py:171-208 | the records are reported in scan order, and the first failure ends the handler |
| DdbTagReport.Handle | lambda/ddb-tag-report/app.py:141-211 | the handler selects every catalogued DynamoDB source once and carries out its plan over them; the tracker table is left as it is |
| RdsTagReport.JdbcUrl | lambda/rds-tag-report/app.py:156-201 | the URL is found exactly when the connection answer carries a truthy Connection, it a truthy ConnectionProperties and that a truthy JDBC_CONNECTION_URL; the first one missing or falsy raises MalformedEvent, and a non-object raises AttributeError |
| RdsTagReport.ClusterId | lambda/rds-tag-report/app.py:204 | an id is found exactly when the URL is a string containing `://`; a non-string has no split (AttributeError) and a URL without `://` has no second piece (IndexError) |
| RdsTagReport.ClusterIdShape | lambda/rds-tag-report/app.py:204 | the cluster id is the text right after the first `://`, up to the first `.`, or to the next `://` or the end when no `.` comes before them |
| RdsTagReport.FirstLabel | lambda/rds-tag-report/app.py:204 | the first `.`-separated label of the text before the first `://` is a dot-free prefix that ends at a `.`, a `://` or the end |
| RdsTagReport.LabelOf | lambda/rds-tag-report/app.py:204 | a prefix of a prefix, each cut where a split put it, is a prefix of the whole that ends at a `.`, a `://` or the end |
| RdsTagReport.ConnectionCluster | lambda/rds-tag-report/app.py:197-204 | the cluster id is found exactly when the connection has a URL and the URL names a cluster, and it is the id that URL names |
| RdsTagReport.ClusterArn | lambda/rds-tag-report/app.py:209 | the ARN is found exactly when DBClusters is a non-empty list whose first entry carries DBClusterArn, and it is that ARN; a missing DBClusters raises KeyError and an empty one IndexError |
| RdsTagReport.RecordWritesRow | lambda/rds-tag-report/app.py:193-242 | a well-formed record makes, in order, the account lookup, the read of its own connection in that account, the description of the cluster its URL names and the tag listing of that cluster's ARN; then at most one row, written exactly when the cluster is tagged, the catalog table name is recorded and some tag is required; the only failure left is KeyError("data_catalog_table_name") |
| RdsTagReport.RecordCalls | lambda/rds-tag-report/app.py:193-242 | a record's turn makes only the account lookup, a connection read, a cluster description, a tag listing and rows of tagCaptureTable |
| RdsTagReport.ReadsTrackerOnly | lambda/rds-tag-report/app.py:178-242 | the handler writes nothing to the tracker table, and every row goes to tagCaptureTable whatever TAG_REPORT_TABLE_NAME says |
| RdsTagReport.SettingsFirst | lambda/rds-tag-report/app.py:168-186 | both table names are required before the scan, and an empty scan ends the handler with nothing written |
| RdsTagReport.ReportCluster | lambda/rds-tag-report/app.py:209-242 | once the cluster is described, its ARN, the tag listing and the report are carried out as planned |
| RdsTagReport.DescribeCluster | lambda/rds-tag-report/app.py:198-242 | once the connection is read, the URL checks, the cluster description and what follows are carried out as planned |
| RdsTagReport.ReadConnection | lambda/rds-tag-report/app.py:141-157 | the connection read makes the account lookup first and then reads the connection in that account, and what follows is carried out as planned |
| RdsTagReport.ReportOne | lambda/rds-tag-report/app.py:194-242 | a record's turn carries out its plan, raising the connection name's KeyError before calling anything |
| RdsTagReport.ReportAll | lambda/rds-tag-report/app.py:193-242 | the records are reported in scan order, and the first failure ends the handler |
| RdsTagReport.Handle | lambda/rds-tag-report/app.py:160-246 | the handler selects every catalogued RDS source once and carries out its plan over them; the tracker table is left as it is |
| Ddl.StatementsSingle | lambda/rds-ddl-init/app.py:357-367 | a single piece contributes its text without surrounding spaces, newlines and tabs, or nothing when that leaves it empty |
| Ddl.SingleStatementFile | lambda/rds-ddl-init/app.py:357-367 | a file without `;` is run as one statement, its stripped text, unless it is blank |
| Ddl.FileStatementsShape | lambda/rds-ddl-init/app.py:357-361 | every statement run is non-empty, contains no `;`, and neither begins nor ends with a space, newline or tab |
| Ddl.StripClean | lambda/rds-ddl-init/app.py:360-361 | a piece without `;` that does not strip to nothing strips to such a clean statement |
| Ddl.StatementsShape | lambda/rds-ddl-init/app.py:357-361 | the statements of pieces without `;` are all clean |
| Ddl.Executions | lambda/rds-ddl-init/app.py:362-367 | each statement is executed on the cluster ARN with the secret ARN and the database name, one execution per statement in order |
| Ddl.ExecutionsSnoc | lambda/rds-ddl-init/app.py:358-367 | one more statement adds exactly its execution at the end |
| Ddl.PiecesRunStatements | lambda/rds-ddl-init/app.py:357-367 | walking the pieces one by one, stripping each and skipping the blank ones, executes exactly the file's statements in file order |
| Ddl.LaterStatementsNotRun | lambda/rds-ddl-init/app.py:224-248 | when the first j statements are accepted and the next is not, exactly the first j+1 statements were sent and the run raises: KeyError("HTTPStatusCode") for a reply without a status, Exception for another status, the ClientError for a refusal |
| Ddl.AllStatementsRun | lambda/rds-ddl-init/app.py:357-367 | when every statement is accepted, all of them are sent once, in file order, and the run raises nothing |
| Ddl.RunDdl | lambda/rds-ddl-init/app.py:355-369 | the statement loop carries out the file's plan: its statements in order until the first that is not accepted |
| Ddl.RunPiece | lambda/rds-ddl-init/app.py:358-367 | a blank piece sends nothing, and any other is executed once, stripped |
| Ddl.FileText | lambda/rds-ddl-init/app.py:262-271 | the file is the decoded text of the response's Body stream, an empty file included, read exactly when the stream is there; a missing or falsy Body raises MalformedEvent and a Body that is not a stream AttributeError |
| Ddl.EmptyFileRunsNothing | lambda/rds-ddl-init/app.py:350-369 | an empty DDL file is read and then no statement is run, so the handler ends without an error once the read is accepted |
| Ddl.ReadPlanCalls | lambda/rds-ddl-init/app.py:348-367 | reading and running a file reads the file first, and every later call executes a clean statement of it on the target cluster with the target secret and database |
| Ddl.ReadAndRun | lambda/rds-ddl-init/app.py:350-369 | the read (status checked) is carried out, then the statements of the file's text, an empty file giving none, as planned |
| RdsDdlInit.LowerOccursAt | lambda/rds-ddl-init/app.py:318 | the lower-cased id occurs in the lower-cased bucket name at a position exactly when it occurs there with case ignored |
| RdsDdlInit.BucketNamesCluster | lambda/rds-ddl-init/app.py:318 | the test succeeds exactly for a text id, and is true exactly when the id occurs somewhere in the bucket name with case ignored; an id that is not text raises AttributeError |
| RdsDdlInit.DatabaseName | lambda/rds-ddl-init/app.py:327-340 | a non-empty DB_NAME setting wins, then a truthy databaseName of the event, then information_schema; the name is never falsy |
| RdsDdlInit.BodyCalls | lambda/rds-ddl-init/app.py:308-369 | past the prologue, the handler calls anything only when the event carries the cluster id and ARN and the bucket's name mentions the cluster; it then makes only Secrets Manager calls, the read of the DDL file from the DDL source bucket, and clean statements on the event's cluster with the truthy secret found for it and the chosen database |
| RdsDdlInit.AfterFetchCalls | lambda/rds-ddl-init/app.py:342-369 | after the secret search, the handler only reads the DDL file and runs statements on the event's cluster with the found secret and the chosen database |
| RdsDdlInit.ForeignBucketEndsQuietly | lambda/rds-ddl-init/app.py:318-320 | a bucket whose name does not mention the cluster ends the handler with nothing more called or raised |
| RdsDdlInit.BodyChecksFirst | lambda/rds-ddl-init/app.py:310-323 | a missing dBClusterIdentifier, then a missing DDL_SOURCE_BUCKET, then a missing dBClusterArn raise before any call past the prologue |
| RdsDdlInit.NoSecretNoRead | lambda/rds-ddl-init/app.py:342-346 | when the search finds no secret for the cluster, the handler raises after the search without reading the file |
| RdsDdlInit.HandleBody | lambda/rds-ddl-init/app.py:308-369 | the handler past the prologue carries out its plan on the message body |
| RdsDdlInit.Handle | lambda/rds-ddl-init/app.py:274-369 | the handler deletes the queue message first when there is one, then carries out its plan on the message body |
| RdsDdlChange.BucketNamesCluster | lambda/rds-ddl-change/app.py:229 | a bucket named `ddl-source-<id>` names the cluster id, when the prefix does not occur again in the id |
| RdsDdlChange.DescribedArn | lambda/rds-ddl-change/app.py:239-245 | a missing or empty DBClusters raises MalformedEvent; otherwise the ARN is found exactly when the first cluster carries a truthy DBClusterArn, and it is that ARN |
| RdsDdlChange.InferenceUnreachable | lambda/rds-ddl-change/app.py:239-262 | an ARN read from the description is always truthy, because the empty cluster list whose IndexError would be caught is already refused; so the inference fallback never runs |
| RdsDdlChange.InferredArn | lambda/rds-ddl-change/app.py:254-258 | the fallback ARN is `arn:aws:rds:<region>:<account>:cluster:<cluster id>` when the caller identity has a truthy Account, and "" when it has none |
| RdsDdlChange.NeverInfers | lambda/rds-ddl-change/app.py:247-258 | the handler never calls STS |
| RdsDdlChange.RegionIgnored | lambda/rds-ddl-change/app.py:250-252 | the handler does the same whether AWS_REGION is set or not |
| RdsDdlChange.AfterDescribeIgnoresRegion | lambda/rds-ddl-change/app.py:239-291 | what follows the description does not depend on AWS_REGION |
| RdsDdlChange.AfterArnIgnoresRegion | lambda/rds-ddl-change/app.py:260-291 | what follows the ARN does not depend on AWS_REGION |
| RdsDdlChange.HandlerCalls | lambda/rds-ddl-change/app.py:218-291 | the handler first describes the cluster its bucket names and then makes only Secrets Manager calls, the read of the DDL file from that bucket, and clean statements on the described cluster with a truthy secret found for it and the DB_NAME database |
| RdsDdlChange.SettingsFirst | lambda/rds-ddl-change/app.py:219-226 | a missing DDL_SOURCE_BUCKET, and then a missing DB_NAME, raise before any call, both reported as MissingEnvironmentVariable("DDL_SOURCE_BUCKET") |
| RdsDdlChange.RunWithArn | lambda/rds-ddl-change/app.py:260-291 | once the ARN is settled, the secret search and the DDL run are carried out as planned, and a falsy ARN or secret raises |
| RdsDdlChange.Handle | lambda/rds-ddl-change/app.py:207-291 | the handler carries out its plan, including the inference branch, which it shows is never taken |
| SecretSearch.Listed | lambda/rds-ddl-init/app.py:204-206 | the secrets gone through are the items of a truthy SecretList, found exactly when it is present, truthy and a list; a missing or falsy one raises MalformedEvent |
| SecretSearch.SecretDocument | lambda/rds-ddl-init/app.py:176-178 | the secret's value is decoded exactly when SecretString is present, truthy and text, and the decoded document is what `json.loads` makes of that text |
| SecretSearch.ClusterIdOf | lambda/rds-ddl-init/app.py:176-184 | the cluster id is the document's dbClusterIdentifier (None when absent), read exactly when the value decodes to a dictionary; a value that is not JSON raises ValueError |
| SecretSearch.FirstOwned | lambda/rds-ddl-init/app.py:206-218 | the place found holds a secret owned by the cluster and no earlier secret is owned, or it is the end when none is |
| SecretSearch.Examined | lambda/rds-ddl-init/app.py:206-218 | the search reads at most every secret listed |
| SecretSearch.ProbeCalls | lambda/rds-ddl-init/app.py:207-208 | a named secret's turn reads its value and nothing else; one without a Name raises MalformedEvent before any call |
| SecretSearch.FoundFirstOwned | lambda/rds-ddl-init/app.py:206-221 | when the search raised nothing and some secret is owned by the cluster, the first such is the last read and its ARN is returned; when none is, every secret is read and the ARN is "" |
| SecretSearch.SequenceOfReads | lambda/rds-ddl-init/app.py:206-208 | turns that each raise nothing and read one secret's value, one after another, read those values in order |
| SecretSearch.ProbesInOrder | lambda/rds-ddl-init/app.py:206-218 | when the search raised nothing, every secret it examined had a Name and its value was read, in list order |
| SecretSearch.FirstOwnedAt | lambda/rds-ddl-init/app.py:214-218 | a search that passed over i secrets and finds the next owned has found the first owned one, and returns its ARN |
| SecretSearch.NotOwnedAt | lambda/rds-ddl-init/app.py:210-214 | a search that passed over i secrets and finds the next not owned goes on past it |
| SecretSearch.NoneOwned | lambda/rds-ddl-init/app.py:194-221 | a search that passed over every secret found none, read them all and returns "" |
| SecretSearch.Probe | lambda/rds-ddl-init/app.py:207-218 | one secret's turn is carried out, and what it reports is whether the secret is owned by the cluster and, if so, its ARN |
| SecretSearch.Search | lambda/rds-ddl-init/app.py:206-218 | the loop goes through the secrets in list order up to the first owned one, and returns its ARN, or "" |
| SecretSearch.FetchCalls | lambda/rds-ddl-init/app.py:196-221 | the search calls Secrets Manager only: the listing first, then reads of secret values |
| SecretSearch.FetchSecret | lambda/rds-ddl-init/app.py:187-221 | the listing is status-checked before any secret is read, and the ARN returned is the one the search finds |
| SecretSearch.LenientClusterId | lambda/rds-glue-initial/app.py:119-126 | the cluster id is read as in the first-match search, except that a secret that is not JSON gives None instead of an error |
| SecretSearch.HoldsIsOwned | lambda/rds-glue-initial/app.py:153-156 | for a truthy cluster id, the full search and the first-match search agree on which secrets match |
| SecretSearch.ScanFaultless | lambda/rds-glue-initial/app.py:149-159 | a secret's turn that raised nothing had a Name, read only that secret's value, and found an ARN when the secret matches |
| SecretSearch.LastHolder | lambda/rds-glue-initial/app.py:149-159 | the place found holds a matching secret and no later secret matches, or it is -1 when none does |
| SecretSearch.FoundLast | lambda/rds-glue-initial/app.py:136-162 | when the full search raised nothing, it returns the ARN of the last matching secret, "" when none matches, and the Name of the last secret listed, whether it matched or not |
| SecretSearch.ScansReadAll | lambda/rds-glue-initial/app.py:149-153 | when the full search raised nothing, every secret had a Name and the value of each was read, in list order |
| SecretSearch.LastFoundStep | lambda/rds-glue-initial/app.py:149-159 | one more secret of the list is one more step of the loop |
| SecretSearch.Scan | lambda/rds-glue-initial/app.py:150-159 | one secret's turn is carried out; the Name is always overwritten, the ARN only on a match |
| SecretSearch.ScanAll | lambda/rds-glue-initial/app.py:149-159 | the loop goes through every secret in list order with no early exit, ending with the loop's variables as the full search defines them |
| SecretSearch.FetchedAllFound | lambda/rds-glue-initial/app.py:129-162 | when the full search raised nothing, the Name returned is the last listed secret's, and the ARN is that of the last match, or "" |
| SecretSearch.FetchedAllCalls | lambda/rds-glue-initial/app.py:139-153 | when the full search raised nothing, it listed the secrets and then read every one of them, in order, by its Name |
| SecretSearch.FetchAll | lambda/rds-glue-initial/app.py:129-162 | the full search is carried out, and returns the ARN and Name it defines |
| RdsGlueInitial.CheckFields | lambda/rds-glue-initial/app.py:370-385 | the fields pass exactly when every one is present and truthy, and otherwise the error raised is that of the first field that fails |
| RdsGlueInitial.EventFieldsPresent | lambda/rds-glue-initial/app.py:370-385 | a body that passes the checks carries the cluster id, the cluster ARN, the endpoint, the engine and the port, and its cluster id is truthy |
| RdsGlueInitial.DatabaseName | lambda/rds-glue-initial/app.py:388-392 | the database is a truthy databaseName of the event, else information_schema; it is never falsy |
| RdsGlueInitial.Protocol | lambda/rds-glue-initial/app.py:395-398 | the protocol is postgresql exactly when "postgres" is in the engine (a substring of a string, an item of a list, a key of a dictionary), else mysql; an engine `in` cannot search raises TypeError |
| RdsGlueInitial.Subnet | lambda/rds-glue-initial/app.py:226-232 | the subnet is the first subnet of the first subnet group, found only when DBSubnetGroups and the group's Subnets are present and truthy; a missing or falsy DBSubnetGroups raises MalformedEvent |
| RdsGlueInitial.Zone | lambda/rds-glue-initial/app.py:202 | the zone is found exactly when the subnet has a SubnetAvailabilityZone dictionary with a Name, and it is that Name |
| RdsGlueInitial.Ssl | lambda/rds-glue-initial/app.py:199 | JDBC_ENFORCE_SSL is "false" without a CONNECTION_SSL setting or with an empty one, and otherwise the setting character by character in lower case; it has no upper-case letter |
| RdsGlueInitial.OccursInside | lambda/rds-glue-initial/app.py:197 | text found in the middle of a URL is found in the URL, shifted by what comes before it |
| RdsGlueInitial.SeparatorAfterProtocol | lambda/rds-glue-initial/app.py:197 | the first `://` of the JDBC URL is the one right after `jdbc:<protocol>` |
| RdsGlueInitial.LabelBeforeDot | lambda/rds-glue-initial/app.py:197 | the first label of `<first>.<rest>` is `first` when `first` has no `.` and no `:` |
| RdsGlueInitial.JdbcUrlParts | lambda/rds-glue-initial/app.py:197 | a JDBC URL on a host `<first>.<rest>` splits into the lead, the `://`, the first label and the rest |
| RdsGlueInitial.JdbcUrlNamesCluster | lambda/rds-glue-initial/app.py:197 | the cluster id rds-tag-report reads back from the connection URL is the first label of the endpoint, when the endpoint is a host name `<first>.<rest>` |
| RdsGlueInitial.ExclusionSchemas | lambda/rds-glue-initial/app.py:439-443 | the excluded schemas start with pg_catalog and information_schema, and are only those when CRAWLER_SCHEMAS_EXCEPTION is not set |
| RdsGlueInitial.ExclusionsRoundTrip | lambda/rds-glue-initial/app.py:440-443 | the schemas added are the setting's comma-separated pieces: joining them with commas gives the setting back |
| RdsGlueInitial.CollectExclusions | lambda/rds-glue-initial/app.py:439-443 | the loop builds exactly the excluded schemas |
| RdsGlueInitial.Quoted | lambda/rds-glue-initial/app.py:452 | each schema name is put between single quotes, one per name |
| RdsGlueInitial.JoinContains | lambda/rds-glue-initial/app.py:452 | every piece of a join occurs in it |
| RdsGlueInitial.TupleHasQuoted | lambda/rds-glue-initial/app.py:452 | each name occurs, quoted, in the tuple text, wherever that text is put |
| RdsGlueInitial.QueryExcludes | lambda/rds-glue-initial/app.py:21-23 | the schema query names every excluded schema, quoted, in its NOT IN list |
| RdsGlueInitial.Records | lambda/rds-glue-initial/app.py:457 | the records are the items of a records list, none when the key is absent, and records are read only from a dictionary answer |
| RdsGlueInitial.Cell | lambda/rds-glue-initial/app.py:459-468 | a proper row yields its first cell's stringValue; an empty row, an empty string, a dictionary or a first cell without stringValue is skipped (the caught IndexError or KeyError); anything kept comes from a proper row |
| RdsGlueInitial.Schemas | lambda/rds-glue-initial/app.py:456-468 | the schemas collected are never more than the records |
| RdsGlueInitial.SchemasFail | lambda/rds-glue-initial/app.py:458-468 | the loop collects the schemas exactly when no record raises an error it does not catch |
| RdsGlueInitial.SchemasFromRows | lambda/rds-glue-initial/app.py:458-462 | every schema collected is the stringValue of some proper row |
| RdsGlueInitial.ProperRowsAllKept | lambda/rds-glue-initial/app.py:458-462 | when every row is proper, the loop keeps the schema of each, in order |
| RdsGlueInitial.SchemasStep | lambda/rds-glue-initial/app.py:458-468 | one more record adds its schema, or nothing when it is skipped |
| RdsGlueInitial.CollectSchemas | lambda/rds-glue-initial/app.py:456-468 | the loop computes exactly the schemas, or the first error that escapes |
| RdsGlueInitial.SchemasStop | lambda/rds-glue-initial/app.py:458-461 | a record that raises ends the loop with its error |
| RdsGlueInitial.SchemasStopped | lambda/rds-glue-initial/app.py:458-461 | once the loop has raised, the records after do not change the result |
| RdsGlueInitial.CrawlerRequests | lambda/rds-glue-initial/app.py:482-497 | one create_crawler per schema, in order, named `glue-crawler-<cluster id>-<schema>`, on the handler's connection and path `postgres/<schema>/%` |
| RdsGlueInitial.CrawlerNamesDistinct | lambda/rds-glue-initial/app.py:483 | two different schema names give two different crawler names |
| RdsGlueInitial.CreateCrawlers | lambda/rds-glue-initial/app.py:482-499 | the crawlers are created in schema order, every answer status-checked, and the first failure ends the loop |
| RdsGlueInitial.BodyChecksFirst | lambda/rds-glue-initial/app.py:370-398 | a missing event field, or an engine `in` cannot search, raises before any call past the prologue |
| RdsGlueInitial.NoSecretNoResources | lambda/rds-glue-initial/app.py:400-405 | when the search finds no ARN for the cluster, the handler ends after the search without raising, having listed the secrets and read each one and nothing more |
| RdsGlueInitial.CreatesConnectionAndCrawlers | lambda/rds-glue-initial/app.py:407-499 | with a secret found and every setting and answer well-formed, the handler then makes exactly: the subnet-group lookup, the identity call, one connection named after the cluster whose SECRET_ID is the Name the search returned, the schema query run with the ARN it returned, and one crawler per schema on that connection |
| RdsGlueInitial.RunQuery | lambda/rds-glue-initial/app.py:456-499 | the schemas, the two crawler settings and the crawlers are carried out as planned |
| RdsGlueInitial.RunConnection | lambda/rds-glue-initial/app.py:439-499 | the schema query with the excluded schemas, and what follows it, are carried out as planned |
| RdsGlueInitial.RunIdentity | lambda/rds-glue-initial/app.py:420-499 | the Account, the subnet's zone, the connection and what follows are carried out as planned |
| RdsGlueInitial.RunSubnets | lambda/rds-glue-initial/app.py:416-499 | the subnet, its identifier, the identity call and what follows are carried out as planned |
| RdsGlueInitial.RunAfterSecret | lambda/rds-glue-initial/app.py:402-499 | no ARN ends the handler quietly; otherwise the security group, the subnet group lookup and the rest are carried out as planned |
| RdsGlueInitial.HandleBody | lambda/rds-glue-initial/app.py:368-501 | the handler past the prologue carries out its plan on the message body |
| RdsGlueInitial.Handle | lambda/rds-glue-initial/app.py:334-501 | the handler deletes the queue message first when there is one, then carries out its plan on the message body |
| PiiReport.ScanOf | lambda/pii-report/app.py:248-258 | a scan record is read as its data_catalog_table, its timestamp and the timestamp's parse, in that order, the table being usable as a dictionary key; the database is looked up from data_catalog_database |
| PiiReport.ScanResults | lambda/pii-report/app.py:246-250 | the records are read one by one, in order |
| PiiReport.TallyStep | lambda/pii-report/app.py:252-263 | a table seen for the first time gets the record's database and time; a table seen before keeps its database and takes the record's time only when strictly later; no other table changes |
| PiiReport.TalliedSnoc | lambda/pii-report/app.py:246-263 | one record more is the dictionary so far, then that record's pass |
| PiiReport.TalliedCovers | lambda/pii-report/app.py:246-263 | when the loop raised nothing, every record was read and every table a record names is in the dictionary |
| PiiReport.LatestIsMaximum | lambda/pii-report/app.py:259-263 | each table's time is no earlier than that of any of its records |
| PiiReport.LatestAttained | lambda/pii-report/app.py:252-263 | each table in the dictionary holds the time and time string of one of its own records |
| PiiReport.FirstFixesDatabase | lambda/pii-report/app.py:252-258 | the first record seen for a table fixes its database, and later records never replace it |
| PiiReport.EarliestOfLatestKept | lambda/pii-report/app.py:261-263 | of several records of a table at its latest time, the time string of the first one is kept, since only a strictly later time replaces it |
| PiiReport.TalliedStopped | lambda/pii-report/app.py:246-258 | the loop ends with the error of the first record it cannot take |
| PiiReport.LatestTables | lambda/pii-report/app.py:244-263 | the latest-timestamp loop computes exactly the latest scan of each table, or the first error |
| PiiReport.LowerIdempotent | lambda/pii-report/app.py:165 | lower-casing twice is lower-casing once |
| PiiReport.EntryOf | lambda/pii-report/app.py:165 | a scan column gives the key of its columnName in lower case, which is lower case, and the `str` of its entityTypes; the entity types are read first, and a non-text name has no `lower` |
| PiiReport.EntryResults | lambda/pii-report/app.py:164-165 | the scan columns are read one by one, in order |
| PiiReport.CollectedCovers | lambda/pii-report/app.py:164-165 | when the loop raised nothing, every column was read and its key is in the dictionary |
| PiiReport.CollectedKeys | lambda/pii-report/app.py:164-165 | every key of the dictionary is the key of some column |
| PiiReport.LastColumnWins | lambda/pii-report/app.py:164-165 | under each key are the entity types of the last column with that key, since a later duplicate overwrites |
| PiiReport.PiiKeysLowerCase | lambda/pii-report/app.py:165 | the keys are the columns' names in lower case, and so are themselves lower case |
| PiiReport.CollectedStopped | lambda/pii-report/app.py:164-165 | the loop stops at the first column it cannot read |
| PiiReport.CollectPiiColumns | lambda/pii-report/app.py:162-165 | the loop computes exactly the PII column dictionary, or the first error |
| PiiReport.Comment | lambda/pii-report/app.py:190-193 | the comment is the label "Sensitive Data Element", a bar and the types when that fits in 255 characters, and otherwise its first 255 characters; it is never longer than 255 and is always a prefix of the full text |
| PiiReport.CommentLabelled | lambda/pii-report/app.py:190-193 | however long the entity types, the comment starts with the label |
| PiiReport.AnnotatedColumn | lambda/pii-report/app.py:187-196 | a column needs a Name; a Name equal to a key of the PII dictionary sets the column's Comment and changes nothing else, and any other column is kept as it is |
| PiiReport.AnnotatedMeaning | lambda/pii-report/app.py:184-196 | the loop fails exactly when some column has no Name; otherwise it keeps the number and order of the columns and annotates each one on its own |
| PiiReport.OnlyLowerCaseNamesMatch | lambda/pii-report/app.py:165-189 | names are compared as they are with lower-case keys, so a column whose Name has an upper-case letter is never annotated |
| PiiReport.AnnotatedStopped | lambda/pii-report/app.py:187-188 | once the loop has raised, the columns after do not change the result |
| PiiReport.AnnotateColumns | lambda/pii-report/app.py:184-196 | the loop computes exactly the annotated columns, or the first error |
| PiiReport.AnnotatedAll | lambda/pii-report/app.py:187 | a list of columns is annotated item by item; an empty string or dictionary gives no columns; anything else raises TypeError |
| PiiReport.Deleted | lambda/pii-report/app.py:179-180 | when the deletions succeed, every property to delete was there, exactly those keys are gone and the rest keep their values; distinct properties that are all there are all deleted; a failure is the KeyError of one of the properties |
| PiiReport.StripProps | lambda/pii-report/app.py:179-180 | the deletion loop computes exactly the deletion of the seven DELETE_PROPS properties |
| PiiReport.Reassembled | lambda/pii-report/app.py:182-198 | the table sent back is the stripped table with its storage descriptor's Columns replaced by the annotated columns; nothing else about the table or the descriptor changes |
| PiiReport.MissingTableRaises | lambda/pii-report/app.py:169-173 | a missing or empty Table raises Exception |
| PiiReport.TableInputParts | lambda/pii-report/app.py:175-198 | a successful input is made of the table's VersionId, the stripped table and its reassembly |
| PiiReport.TableInputStripped | lambda/pii-report/app.py:177-204 | a successful input had every property to delete, sends none of them back, sends the VersionId separately, and sends every other property but the storage descriptor unchanged |
| PiiReport.TableInputColumns | lambda/pii-report/app.py:182-198 | the storage descriptor sent back holds the annotated columns of the table's own descriptor |
| PiiReport.TableInputSucceeds | lambda/pii-report/app.py:175-198 | a table with every property to delete, a VersionId and a storage descriptor whose columns can be annotated gives an update input |
| PiiReport.DeletePropsShape | lambda/pii-report/app.py:22 | DELETE_PROPS names seven distinct properties, VersionId among them, and not StorageDescriptor |
| PiiReport.BuildTableInput | lambda/pii-report/app.py:169-198 | the table part of the update computes exactly the update input, or the error it raises |
| PiiReport.UpdateCalls | lambda/pii-report/app.py:151-209 | an unreadable scan column raises before any call; a missing table raises after get_table; otherwise the update makes one get_table and one update_table of the same database, with the input and version the table gives |
| PiiReport.PutTable | lambda/pii-report/app.py:169-209 | once the table is read, the update_table call is carried out as planned |
| PiiReport.UpdateCatalogTable | lambda/pii-report/app.py:151-211 | update_catalog_table carries out its plan: the PII columns, get_table, then update_table |

## Left out

- The AWS services themselves. Each boto3 call is only a logged request with an oracle answer, and the payloads the handlers read are handler parameters. There is no model of S3, DynamoDB, Glue, RDS, the RDS Data API, Secrets Manager, SQS or STS behaviour, because that code is not part of the repository.
- `json.loads` and `json.dumps`, and DynamoDB's `TypeSerializer`/`TypeDeserializer`. These are library code. Message bodies are decoded through a `decode` parameter, and tracker items are the decoded values.
- `uuid.uuid4` and the `datetime` calls. Record ids and creation times come from a stamp oracle. `strptime` in pii-report is the `stamp` parameter, and `str` of the entity types is the `show` parameter.
- Logging, the logger setup, client `close` calls, and the `time.sleep(120)` in rds-ddl-change. None of their effects appear in a result.
- The exact text of Python's `repr` in the schema-exclusion query of rds-glue-initial. Schema names are assumed free of quotes and backslashes, so the quoting is the plain `'name'` form.
- The Glue crawler `Schedule` and `SchemaChangePolicy` fields and the connection's fixed `JDBC` type literal. They are constants no property depends on.
- Concurrency between invocations, the unconditional-update race, and response paging. Each model is one sequential invocation over one page.
- `Text.Lower`: lower-cases ASCII letters only. Python's Unicode case mapping is not modelled.
- SqsEvent.First: Python's `KeyError(0)` on a dictionary is reported as `KeyError("0")`, because the model's KeyError carries text keys.
- Aws.CheckExecuted: a reply carries one "no status" case, so a reply without `ResponseMetadata` at all, which Python reports as `KeyError("ResponseMetadata")`, is reported as `KeyError("HTTPStatusCode")`.
- Ddl.FileText: the S3 `StreamingBody` is given as its decoded text, so a file that is not valid UTF-8 (a UnicodeDecodeError) is not modelled.
- Python dictionary iteration order. The tracker scan returns the selected records in an unspecified order (`Select` picks one). The rds-glue-initial records and the pii-report dictionaries are unordered maps.
- The rest of pii-report's `lambda_handler` is not modelled. This covers its settings, the PartiQL scan and its Items check, the STS lookup and the per-table loop around `update_catalog_table`. Only the latest-per-table loop and `update_catalog_table` are modelled.
- scripts/ddb_synthetic_data_generation is not part of this model. It is a data generator driven by randomness and credentials, with no core logic.
- `RdsDdlChange.Handle`: omits the account-inference fallback at lambda/rds-ddl-change/app.py:247-258, because `InferenceUnreachable` proves it never runs.

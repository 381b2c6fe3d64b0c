# video-transcriber-ai: a Dafny model of the processing pipeline

This project models the core of video-transcriber-ai. That service stores uploaded videos in S3, transcribes them and publishes a summary. The model follows one upload through its whole path:

1. The API issues a presigned upload URL for the key `videos/{uuid}_{filename}` and registers a metadata record with status "uploaded".
2. The S3-triggered Lambda parses the video id out of the object key. It finds the record, retrying while the record may not be written yet, claims the video by writing "processing", and sends one job to the processing queue. A failed send reverts the status to "uploaded".
3. The worker runs `process_video` for each job. It writes "processing", then "error" or "completed", and stores the transcript and the summary. A table write that DynamoDB refuses raises its `ClientError` and leaves the record "processing". The message is deleted when the job succeeds or is refused with a `ValueError`, and kept for redelivery on any other exception.
4. The dead-letter monitor marks a dead-lettered job "failed" and only then deletes the message.

Around that path the model also covers:

- the DynamoDB key scheme and the `SET` update-expression builder;
- the Memcached cache of records, and the transcript text pipeline (normalisation, de-duplication, the sizing rule of the representative selection);
- the summary wrapper;
- the configuration with its secret and parameter caches;
- Cognito token verification with its one-hour key-set cache;
- the request guards and the built-in user table.

Each core file becomes one module. Pure code becomes functions and lemmas. Objects whose methods update fields become classes with `modifies` frames: the DynamoDB client, the repository, the cache, the bucket, the queues, the configuration manager, the settings, the JWT verifier, the trigger, the worker, the dead-letter monitor and the text compressor. Each state-changing method is specified by a function of the old state, and the properties are lemmas about those functions. The tables, the bucket, the queues and the caches are `map`s and `seq`s held in those classes.

Calls into code outside the repository become parameters of the operations that make them:

- boto3: whether each DynamoDB, S3, SQS and Memcached call is refused with a `ClientError` (for DynamoDB a flag per call, for S3 the unreachable keys, for SQS a flag per send or delete, for Memcached a script of answers), and what queries answer;
- Whisper transcription, the OpenAI chat model, the sentence encoder and the MMR choice;
- `jwt` header parsing and verified decoding, JSON decoding, UUID generation and URL signing;
- the clock.

A few operations raise on every input where they evidently were meant to succeed. The model keeps that behaviour as it is:

- `get_all_users("admin")` calls `.copy()` on a (name, record) tuple;
- `get_videos` calls the missing `VideoInfo.from_domain` for every listed video;
- `get_video_info` reads an attribute of a dict;
- `verify_token` reads `settings.SECRET_KEY` and `settings.ALGORITHM`, which the settings class does not declare, so every token check raises `AttributeError`.

The lemmas `Admin.ListingNeverSucceeds`, `VideosApi.GetVideos`, `VideosApi.GetVideoInfo` and `Admin.EveryRequestRaisesAsWritten` state these outcomes. The admin request is composed twice. `Admin.ListUsersRequestAsWritten` uses `verify_token` as written, and every request ends in that `AttributeError`. `Admin.ListUsersRequest` and the lemmas about it use `verify_token` as intended, with a signing key present, so the endpoint's own 401 and 403 answers are still stated.

Two pairs of source files are identical copies, and one module models each pair:

- `server/app/services/dynamodb_client.py` and `server/app/repositories/dynamodb_client.py`, both modelled by `Store`;
- `server/app/clients/s3_client.py` and `server/app/services/s3_presigned_url_service.py`, both modelled by `S3Keys.CreatePresignedUrl`.

The rows below cite the first file of each pair.

`server/app/worker/video_processor/message_handler.py` is not part of this model. The worker is modelled as parsing and validating its jobs the way the dead-letter monitor's `DLQMessageHandler` does.

## Model

| member | source | states |
|---|---|---|
| Store.SortKey | server/app/services/dynamodb_client.py:23 | the sort key starts with the owner followed by `#` |
| Store.SortKeyInjective | server/app/services/dynamodb_client.py:23 | for video ids without `#`, equal sort keys mean the same owner and the same video id |
| Store.KeyItem | server/app/services/dynamodb_client.py:24 | the key attributes of a key read back as that key |
| Store.Lookup | server/app/services/dynamodb_client.py:22-25 | `get_item` gives an item exactly when one is stored under the key, and it is that item |
| Store.PutItem | server/app/services/dynamodb_client.py:27-28 | `put_item` replaces the item under its own key, and refuses an item whose key attributes are not strings |
| Store.DeleteKey | server/app/services/dynamodb_client.py:30-32 | after `delete_item` the key is absent and every other key reads as before; deleting an absent key is no error |
| Store.UpdateItem | server/app/services/dynamodb_client.py:45-52 | an update stores the returned item under the key and changes no other key; an expression naming a key attribute is refused with a validation error |
| Store.UpdateFieldsEffect | server/app/repositories/video_repository.py:111-129 | the request `update_fields` builds stores the old item, or the bare key when none exists, overlaid with exactly the given fields; nothing else in the table changes |
| Store.SingleFieldEffect | server/app/repositories/video_repository.py:111-129 | a one-field update sets exactly that attribute of the addressed record |
| Store.StatusWriteEffect | server/app/lambda/utils.py:93-114 | a status write sets exactly `status`, creating a record that holds only the key and the status when none exists |
| Store.WithStatus | server/app/lambda/utils.py:93-114 | after a status write the record has the new status and every other attribute as before; every other record is unchanged |
| Store.WithStatusIsUpdate | server/app/lambda/utils.py:93-114 | `update_item` with the status request answers exactly that table and record |
| Store.GetAfterPut | server/app/services/dynamodb_client.py:22-28 | a stored item reads back under its key; other keys are untouched |
| Store.QueryRequestFor | server/app/services/dynamodb_client.py:34-43 | the query targets the account partition and the `owner#` prefix, descending, with the given limit; the start key is passed exactly when it is a non-empty dict |
| Store.StrLessTransitive | server/app/services/dynamodb_client.py:38 | the descending sort-key order is transitive (with `StrLessIrreflexive`, a strict order) |
| Store.AnswerIsStrictlyDescending | server/app/services/dynamodb_client.py:37-39 | in a descending answer, any earlier item has a strictly larger sort key than any later one, so no item is listed twice |
| Store.OwnerPrefixScope | server/app/services/dynamodb_client.py:37 | the `owner#` prefix matches the owner's own keys, and also those of any owner whose name extends `owner#` |
| Store.DynamoDbClient.constructor | server/app/services/dynamodb_client.py:16-20 | the client holds the configured account name as its partition and the given table contents |
| Store.DynamoDbClient.KeyFor | server/app/services/dynamodb_client.py:23-24 | the key is the client's fixed partition with the `owner#video` sort key |
| Store.DynamoDbClient.GetVideo | server/app/services/dynamodb_client.py:22-25 | a refused call raises the service's `ClientError`; otherwise the stored item under the video's key, or nothing |
| Store.DynamoDbClient.PutVideo | server/app/services/dynamodb_client.py:27-28 | a refused call raises the `ClientError` and changes nothing; otherwise the table is the old one with the item under its key, and an item whose key attributes are not strings is refused with a validation error and changes nothing |
| Store.DynamoDbClient.DeleteVideo | server/app/services/dynamodb_client.py:30-32 | a refused call raises the `ClientError` and changes nothing; otherwise the table is the old one without the video's key |
| Store.DynamoDbClient.UpdateVideo | server/app/services/dynamodb_client.py:45-52 | a refused call raises the `ClientError` and changes nothing; otherwise the new table and the returned item are those `update_item` gives, and on its error the table is unchanged. No code in the repository calls `update_video_attributes`; the model uses this method only as the `update_item` call of the trigger's status write |
| Store.DynamoDbClient.QueryVideosByOwner | server/app/services/dynamodb_client.py:34-43 | the request sent is the owner query, and the answer is the service's answer to it |
| UpdateExpression.BuildUpdateRequest | server/app/repositories/video_repository.py:115-121 | the loop builds `SET #k = :k, ...`, the names map and the values map of the field list |
| UpdateExpression.ParseClausesRoundTrip | server/app/repositories/video_repository.py:118-120 | reading the serialised clauses back gives exactly the placeholder pairs, in order |
| UpdateExpression.NamesForAvoids | server/app/repositories/video_repository.py:121 | a request built from attribute names never targets the key attributes `qut-username` or `sort-key` |
| UpdateExpression.UpdateRequestRoundTrip | server/app/repositories/video_repository.py:111-129 | evaluating the built request sets exactly the listed attributes to the listed values and leaves every other attribute as it was |
| UpdateExpression.StatusUpdateExpression | server/app/repositories/video_repository.py:118-121 | for the one field `status` the expression is `SET #status = :status`, with the matching names and values maps |
| VideoRepository.MetadataItem | server/app/repositories/video_repository.py:33-46 | the record is stored under (account, `owner#video`), has exactly the ten metadata attributes (ten distinct names, by `MetadataAttrsCount`), takes `created_at` from the caller when truthy and from the clock otherwise, and carries the given status, owner and id |
| VideoRepository.OptionalField | server/app/repositories/video_repository.py:73-80 | an optional key or path becomes a field exactly when it is truthy |
| VideoRepository.TranscriptFields | server/app/repositories/video_repository.py:66-80 | the five transcript fields come first, in dict order, followed by at most four optional ones |
| VideoRepository.TranscriptFieldsShape | server/app/repositories/video_repository.py:66-80 | the transcript fields form a dict of plain attribute names, and each optional key is present exactly when its value is truthy |
| VideoRepository.Project | server/app/repositories/video_repository.py:92-102 | a listed entry copies the record's attributes, and its `status` defaults to `uploaded` |
| VideoRepository.ProjectAll | server/app/repositories/video_repository.py:91-104 | the listing has one entry per item, in order, each the projection of its item |
| VideoRepository.SavedRecordListing | server/app/repositories/video_repository.py:35-46 | a freshly saved record lists with its own id, file name, type and status, and with no summary or transcript |
| VideoRepository.ListingOfAnswer | server/app/repositories/video_repository.py:87-106 | a listing built from a conforming answer has at most `limit` entries, each the projection of a record stored in the owner's sort-key range |
| VideoRepository.VideoRepository.constructor | server/app/repositories/video_repository.py:12-13 | the repository works on the client it is given |
| VideoRepository.VideoRepository.SaveMetadata | server/app/repositories/video_repository.py:15-48 | a refused `put_item` raises its `ClientError` and changes nothing; otherwise returns the video id, and the table holds the record under its key |
| VideoRepository.VideoRepository.Get | server/app/repositories/video_repository.py:84-85 | a refused `get_item` raises its `ClientError`; otherwise the record stored under the video's key, if any |
| VideoRepository.VideoRepository.Delete | server/app/repositories/video_repository.py:108-109 | a refused `delete_item` raises its `ClientError` and changes nothing; otherwise the video's key is removed from the table |
| VideoRepository.VideoRepository.UpdateFields | server/app/repositories/video_repository.py:111-129 | a refused call raises its `ClientError` and changes nothing; an empty dict writes nothing and returns the current record, or `{}`; otherwise the table and the result are those of the one `update_item` call |
| VideoRepository.VideoRepository.SaveTranscriptData | server/app/repositories/video_repository.py:50-82 | a refused `update_item` raises its `ClientError` and changes nothing; otherwise the record is the old one, or the bare key, overlaid with exactly the transcript fields |
| VideoRepository.VideoRepository.ListByOwner | server/app/repositories/video_repository.py:87-106 | the entries are the projections of the answer's items, with its continuation key |
| Cache.EffectiveTtl | server/app/services/cache_service.py:95 | a missing or zero TTL becomes the configured default; any other TTL is kept |
| Cache.VideoInfoKeyInjective | server/app/services/cache_service.py:127-138 | for video ids without `:`, two (owner, video) pairs never share a cache key |
| Cache.MentionDisables | server/app/services/cache_service.py:74 | an error whose text spells "timeout" or "connection" anywhere, in any letter case, drops the client |
| Cache.ConnectionErrorDisables | server/app/services/cache_service.py:74 | "Connection refused" drops the client |
| Cache.TimeoutErrorDisables | server/app/services/cache_service.py:74 | "socket TIMEOUT" drops the client |
| Cache.OtherErrorKeepsClient | server/app/services/cache_service.py:71-77 | another error, such as "key too long", keeps the client |
| Cache.WithoutIKeepsClient | server/app/services/cache_service.py:71-77 | an error message with no `i` in either case can name neither a timeout nor a connection, so it never switches the cache off |
| Cache.CacheService.constructor | server/app/services/cache_service.py:18-44 | the client exists exactly when the endpoint is non-empty and creating the client did not raise |
| Cache.CacheService.Get | server/app/services/cache_service.py:50-77 | without a client, a miss and no call; a served call gives the stored value unless it is falsy; an error gives a miss and drops the client exactly for a timeout or connection error; the contents never change |
| Cache.CacheService.Set | server/app/services/cache_service.py:79-103 | stores the value with the effective TTL and returns true; an error, or no client, stores nothing and returns false; the client is kept |
| Cache.CacheService.Delete | server/app/services/cache_service.py:105-125 | removes exactly the key and returns true; an error, or no client, removes nothing and returns false |
| Cache.CacheService.InvalidateVideoInfo | server/app/services/cache_service.py:140-152 | deletes exactly the video's `video_info:owner:video` key |
| Blobs.ReadObject | server/app/services/video_service.py:202 | a read succeeds exactly for a reachable, present key and returns its object; an unreachable key is refused with AccessDenied and a missing one raises NoSuchKey |
| Blobs.BlobStore.constructor | server/app/services/video_service.py:20-32 | the bucket starts with the given objects and the given unreachable keys |
| Blobs.BlobStore.PutObject | server/app/services/video_service.py:308-310 | a reachable key now holds exactly the new body and nothing else changes; an unreachable key raises and changes nothing |
| Blobs.BlobStore.GetObject | server/app/services/video_service.py:353 | the answer is `ReadObject` of the current bucket: the stored object, NoSuchKey or AccessDenied |
| Blobs.BlobStore.DeleteObject | server/app/services/video_service.py:157 | a reachable key is removed (a missing one silently), nothing else changes; an unreachable key raises and changes nothing |
| Queue.WithoutHandle | server/app/clients/sqs_client.py:121-136 | keeps exactly the messages with another receipt handle, never adding any |
| Queue.WithoutAbsentHandle | server/app/clients/sqs_client.py:128-131 | deleting by a handle no message carries leaves the queue as it was |
| Queue.WithoutHandleTwice | server/app/clients/sqs_client.py:128-131 | deleting twice with the same handle is the same as deleting once |
| Queue.Deleted | server/app/clients/sqs_client.py:121-153 | `delete_message` and `delete_message_from_dlq`: the queue never gains a message; a failed delete leaves it as it was, and a delete removes exactly the messages with the message's receipt handle |
| Queue.MessageQueue.constructor | server/app/clients/sqs_client.py:16-50 | the queue starts with the given messages |
| Queue.MessageQueue.Send | server/app/clients/sqs_client.py:52-77 | true and the message appended at the end, or false and the queue unchanged |
| Queue.MessageQueue.Delete | server/app/clients/sqs_client.py:121-153 | true and every message with that receipt handle removed, or false and the queue unchanged |
| S3Keys.Uuid4Shape | server/app/clients/s3_client.py:13 | a uuid4 text is 36 characters long, contains `-` and never `_` |
| S3Keys.CreatePresignedUrl | server/app/clients/s3_client.py:12-22 | the result carries exactly the given file id, the key `videos/` + id + `_` + filename, and the URL the signer gives for a `put_object` on that bucket, key, content type and expiry; for a uuid4 id the key parses back to the id |
| S3Keys.FilenamePart | server/app/lambda/utils.py:28-32 | strips one leading `videos/` when present and otherwise keeps the key |
| S3Keys.VideoKey | server/app/clients/s3_client.py:13-14 | the upload key lies under `videos/`, and what follows is the id and the file name joined by `_` |
| S3Keys.VideoIdOfDecodedKey | server/app/lambda/utils.py:34-44 | an id is 36 characters long and holds a `-` but no `_`; no `_` after the prefix means no id |
| S3Keys.VideoIdIsFirstPiece | server/app/lambda/utils.py:34-44 | the text before the first `_` is the id exactly when it is 36 characters long with a `-` |
| S3Keys.ExtractVideoIdFromS3Key | server/app/lambda/utils.py:17-47 | an extracted id is 36 characters long with a `-` and no `_`; a key without `_` after the prefix yields none; a key that decodes to an upload key with a uuid4 id yields that id |
| S3Keys.KeyRoundTrip | server/app/lambda/utils.py:17-47 | the id embedded in an upload key with a uuid4 id is the id extracted from it |
| S3Keys.PrefixIsOptionalAndSingle | server/app/lambda/utils.py:28-32 | a key without `videos/` still parses; a doubled prefix yields no id |
| S3Keys.RejectedKeys | server/app/lambda/utils.py:40-44 | a key with no `_`, or with a short id part, yields no id |
| S3Trigger.LookupFrom | server/app/lambda/utils.py:56-85 | from a given attempt on, at least one and at most the remaining number of queries are made, and a record found is the first item of the last query made |
| S3Trigger.MetadataLookup | server/app/lambda/utils.py:50-85 | with at least one attempt allowed, between one and `max_retries` queries are made, and a record found is the first item of the last query; with none allowed, no query and no record |
| S3Trigger.LookupFindsFirstHit | server/app/lambda/utils.py:65-68 | the first query with items, within the allowed attempts, decides the record and the number of queries |
| S3Trigger.LookupExhausted | server/app/lambda/utils.py:70-85 | without items in any allowed attempt, every attempt is made and nothing is found; with no attempts allowed, no query is made |
| S3Trigger.GetVideoMetadata | server/app/lambda/utils.py:50-85 | returns what the lookup specification gives, makes at most `max_retries` queries, and sleeps `retry_delay` between two queries but never after the last |
| S3Trigger.JobMessage | server/app/lambda/utils.py:117-145 | the body carries the video id, the owner and the timestamp; the attributes are exactly MessageType, VideoId and Source, with VideoId the video id |
| S3Trigger.RecordOutcome | server/app/lambda/s3_trigger_handler.py:28-105 | a record raises exactly when it lacks its bucket and key (`KeyError`, nothing written or sent) or its claimed metadata has a numeric owner (`TypeError` from `json.dumps`, nothing sent); every other record gives `True` or `False` |
| S3Trigger.NoVideoIdNoEffect | server/app/lambda/s3_trigger_handler.py:42-45 | a key that yields no video id gives `False`, and no write and no message |
| S3Trigger.UnownedNoEffect | server/app/lambda/s3_trigger_handler.py:50-63 | no record found, or a record without a truthy owner, gives `False`, and no write and no message |
| S3Trigger.ClaimedIsSkipped | server/app/lambda/s3_trigger_handler.py:67-71 | a record already "processing" or "completed" gives `True`, and no write and no message |
| S3Trigger.ClaimOutcomes | server/app/lambda/s3_trigger_handler.py:73-105 | for a record that passes the checks with a string owner, the result is `True` exactly when the send succeeds; a sent job is the only message added; a failed send adds nothing and, unless the revert fails, leaves the status "uploaded"; a successful claim and send leave the status "processing". With a numeric owner, `TypeError` escapes after the claim, with nothing sent and no revert. No other record changes |
| S3Trigger.ClaimFor | server/app/lambda/s3_trigger_handler.py:50-105 | raises exactly when a claim is attempted for a numeric owner, and then `TypeError` with nothing sent; otherwise the queue either stays as it was or gains exactly the job message for this video at its end, with `True`; no record or no truthy owner gives `False` with nothing written or sent |
| S3Trigger.ClaimForOutcomes | server/app/lambda/s3_trigger_handler.py:73-105 | for metadata that passes the checks with a string owner, the result is `True` exactly when the send succeeds; a sent job is the only message added; a failed send adds nothing and, unless the revert fails, leaves the status "uploaded". With a numeric owner, `TypeError` after the claim, nothing sent and no revert. No other record changes |
| S3Trigger.RepeatEventIsSkipped | server/app/lambda/s3_trigger_handler.py:67-91 | after a successful claim, a repeated event that reads the stored record back is skipped, so exactly one job is enqueued for a string owner and none for a numeric one |
| S3Trigger.FailedClaimAllowsSecondJob | server/app/lambda/s3_trigger_handler.py:81-91 | when the claim write fails but the send succeeds, a repeated event enqueues a second job for the same video; with a numeric owner both events raise `TypeError` and no job is sent |
| S3Trigger.RecordsFrom | server/app/lambda/s3_trigger_handler.py:121-144 | the record loop answers either 200 or 500 |
| S3Trigger.StatusCodeOfRecords | server/app/lambda/s3_trigger_handler.py:127-144 | the response is 500 exactly when some record raises (it is malformed, or a claim is attempted for a numeric owner); records answering `False` do not change it |
| S3Trigger.RaisingRecordStopsLoop | server/app/lambda/s3_trigger_handler.py:127-128 | the records after one that raises have no effect on the response or the state |
| S3Trigger.HandlerOutcome | server/app/lambda/s3_trigger_handler.py:108-144 | the response is 200 or 500, and 500 exactly when the configuration fails or some record raises (malformed, or a numeric owner reaching the send); a failed configuration changes nothing |
| S3Trigger.TriggerLambda.constructor | server/app/lambda/s3_trigger_handler.py:123 | the Lambda holds the given table, queue and URL decoder |
| S3Trigger.TriggerLambda.UpdateVideoStatus | server/app/lambda/utils.py:88-114 | `True` and only the `status` of the `owner#video` record set, or `False` and the table unchanged |
| S3Trigger.TriggerLambda.SendMessageToSqs | server/app/lambda/utils.py:117-152 | a numeric owner raises `TypeError` with the queue unchanged; otherwise `True` and the job message appended to the queue, or `False` and the queue unchanged |
| S3Trigger.TriggerLambda.ProcessS3Record | server/app/lambda/s3_trigger_handler.py:30-105 | the result (including the `KeyError` and `TypeError` it lets out), the new table and the new queue are those of the record specification that the lemmas above describe |
| S3Trigger.TriggerLambda.LambdaHandler | server/app/lambda/s3_trigger_handler.py:108-144 | the status code, table and queue are those of the handler specification: 500 when the configuration fails, else the record loop, which ends with 500 at the first record that raises |
| MessageHandler.ParseMessage | server/app/worker/dlq_monitor/message_handler.py:15-28 | `None` exactly for a message without a body or with a body that is not JSON; a JSON body that is not an object raises `AttributeError`; otherwise the body's video id and owner and the envelope's message id and receipt handle |
| MessageHandler.Accepted | server/app/worker/dlq_monitor/main.py:47-48 | a message is accepted exactly when its body is an object with a truthy video id and a truthy owner; the accepted data is the parsed data, and it is valid |
| MessageHandler.EnvelopeNotRequired | server/app/worker/dlq_monitor/message_handler.py:30-37 | validity does not depend on the message id or the receipt handle |
| MessageHandler.BlankIdentifierIsInvalid | server/app/worker/dlq_monitor/message_handler.py:36-37 | an absent, empty or zero identifier makes the job invalid |
| Dlq.DlqOutcome | server/app/worker/dlq_monitor/main.py:44-72 | the dead-letter queue either keeps the message or loses it through `delete_message_from_dlq` |
| Dlq.DlqPolicy | server/app/worker/dlq_monitor/main.py:44-72 | an invalid message is deleted with no write; a valid one is deleted only after its record is marked "failed" (never "error") and stays when the mark fails; an exception leaves everything unchanged; the job's record is the only record touched and only its status changes |
| Dlq.MarkedFailed | server/app/worker/dlq_monitor/job_processor.py:22-26 | the marked record's status is "failed"; an absent record becomes one with only its key and that status |
| Dlq.MarkCreatesStub | server/app/worker/dlq_monitor/job_processor.py:22-26 | marking a job whose record was deleted creates a record with only its key and the status "failed" |
| Dlq.DlqJobProcessor.constructor | server/app/worker/dlq_monitor/job_processor.py:15-16 | the processor writes through the given repository |
| Dlq.DlqJobProcessor.MarkVideoAsFailed | server/app/worker/dlq_monitor/job_processor.py:18-32 | success sets the record's status to "failed" and nothing else; a failed write raises the `ClientError` again and leaves the table unchanged |
| Dlq.DlqMonitor.constructor | server/app/worker/dlq_monitor/main.py:29-33 | the monitor holds the given processor and queues |
| Dlq.DlqMonitor.ProcessDlqMessage | server/app/worker/dlq_monitor/main.py:44-72 | the result, the table and the dead-letter queue are those of the monitor's specification; the main queue is untouched |
| Timeouts.Trunc | server/app/worker/video_processor/timeout_manager.py:49 | `int()` of a float truncates toward zero: the result is within one of the argument, at or below it for non-negative arguments and at or above it for negative ones |
| Timeouts.NewTimeout | server/app/worker/video_processor/timeout_manager.py:49-53 | the computed timeout is `min(floor(elapsed + 300), 1800)`: exactly the maximum once elapsed time plus the buffer reaches it, below the maximum otherwise (for a non-negative total), and there the total rounded down |
| Timeouts.Checks | server/app/worker/video_processor/timeout_manager.py:43-72 | the monitor never makes more checks than there are readings |
| Timeouts.Requests | server/app/worker/video_processor/timeout_manager.py:43-72 | at most one visibility change per check, and none when no reading lifts the timeout above the default |
| Timeouts.RequestsInRange | server/app/worker/video_processor/timeout_manager.py:52-61 | every visibility change requested is strictly above the default timeout and at most the maximum |
| Timeouts.MaxRequestIsLast | server/app/worker/video_processor/timeout_manager.py:69-72 | only the last request can be the maximum |
| Timeouts.StopsAtFirstMaximum | server/app/worker/video_processor/timeout_manager.py:69-72 | the monitor stops right after the first check that reaches the maximum, whose request is the maximum |
| Timeouts.RequestsNondecreasing | server/app/worker/video_processor/timeout_manager.py:46-61 | elapsed times that never go down give requests that never go down |
| Timeouts.RequestsAtLeast | server/app/worker/video_processor/timeout_manager.py:46-61 | readings at least some elapsed time request at least the timeout of that time |
| Timeouts.TruncIsMonotone | server/app/worker/video_processor/timeout_manager.py:49 | truncation preserves order |
| Timeouts.MonitorAndExtendTimeout | server/app/worker/video_processor/timeout_manager.py:41-72 | the loop requests exactly the specified changes, makes exactly the specified checks, and stops by itself exactly when some check reaches the maximum |
| Worker.JobOutcome | server/app/worker/video_processor/job_processor.py:32-49 | `True` exactly when processing returned, `False` exactly on a `ValueError`, and any other exception re-raised unchanged |
| Worker.MessageOutcome | server/app/worker/video_processor/main.py:44-77 | the queue either keeps the message or loses it through `delete_message`, and never gains a message; the pipeline runs only for a message accepted as a job |
| Worker.AckPolicy | server/app/worker/video_processor/main.py:44-77 | an unparsable or invalid message is deleted with `False` and no job; a job that returns is deleted with `True`; a `ValueError` is deleted with `False`; any other exception keeps the message with `False`; only a JSON body that is not an object lets an exception escape, and then nothing changes |
| Worker.RefusedJobIsDeletedLeavingStatus | server/app/worker/video_processor/main.py:65-70 | a job refused before any write is deleted and leaves the table, the bucket and the record's status as they were |
| Worker.FailedJobIsKeptInError | server/app/worker/video_processor/main.py:72-77 | a job whose run writes "processing" then "error" is kept on the queue with `False`, and its record ends in "error" with every other field as before |
| Worker.RefusedWriteKeepsJobInProcessing | server/app/worker/video_processor/main.py:72-77 | a job whose run is stopped by a refused table write after "processing" is kept on the queue with `False`; the run raised the `ClientError` and the record stays "processing" |
| Worker.VideoProcessingWorker.constructor | server/app/worker/video_processor/main.py:29-33 | the worker holds the given service and queue and is running |
| Worker.VideoProcessingWorker.SignalHandler | server/app/worker/video_processor/main.py:39-42 | the worker stops running |
| Worker.VideoProcessingWorker.ProcessSingleJob | server/app/worker/video_processor/job_processor.py:22-49 | the result is the job outcome of the specified `process_video` run, and the table, bucket and status writes are that run's |
| Worker.VideoProcessingWorker.ProcessMessage | server/app/worker/video_processor/main.py:44-77 | the result and queue are those of the message specification; without a job nothing else changes, with a job the table, bucket and status writes are its run's |
| Worker.VideoProcessingWorker.ProcessBatch | server/app/worker/video_processor/main.py:92-96 | a stopped worker handles nothing; otherwise messages are handled in order until the signal or an escaping exception, which only a non-object body causes; the worker keeps running unless the signal came; the queue never gains a message |
| Pipeline.TriggerJobIsAccepted | server/app/lambda/utils.py:122-126 | the job the trigger sends is accepted by both handlers with the same identifiers and addresses the record the trigger claimed |
| Pipeline.SentJobsAreValid | server/app/lambda/s3_trigger_handler.py:86-105 | handling a record adds at most one message, at the end, and that message passes validation |
| Pipeline.FailedDownloadStrandsProcessing | server/app/services/video_service.py:201-204 | a claimed job whose download fails writes no status and leaves the table as it was, so the record stays "processing"; when both reads go through the job is deleted with `False`, and when a read is refused the `ClientError` keeps it on the queue |
| Pipeline.ErrorThenDeadLetterEndsFailed | server/app/worker/dlq_monitor/main.py:58-67 | a job left in "error", or in "processing" by a refused write, is kept on the queue; once dead-lettered it is marked "failed" on the same record, with its other attributes unchanged, and removed |
| Pipeline.DemoTranscriptIsKept | server/app/services/video_service.py:224-242 | when transcription returns the demo text, a job that gets past the checks is kept, and its run ends in "error", or stays "processing" when the "error" write is refused |
| VideoService.Extension | server/app/services/video_service.py:61 | the extension contains no dot |
| VideoService.ExtensionAfterLastDot | server/app/services/video_service.py:61-62 | the extension is the lower-cased text after the last dot, and the file is audio exactly when that is one of the seven audio extensions |
| VideoService.ExtensionWithoutDot | server/app/services/video_service.py:61 | a name without a dot is its own (lower-cased) extension |
| VideoService.FileType | server/app/services/video_service.py:61-62 | the file type is "audio" or "video", and "audio" exactly when the extension is one of the seven audio extensions |
| VideoService.UpperCaseAudio | server/app/services/video_service.py:61-62 | a ".MP3" file is audio: letter case is ignored |
| VideoService.LastExtensionDecides | server/app/services/video_service.py:61-62 | only the last extension counts: ".mp3.mp4" is video |
| VideoService.BareNameIsItsExtension | server/app/services/video_service.py:61-62 | a bare name "wav" counts as audio |
| VideoService.ArtifactKindsApart | server/app/services/video_service.py:288-291 | the JSON, text and metadata artifact keys never coincide, for the same or different videos |
| VideoService.ArtifactKeysInjective | server/app/services/video_service.py:288-291 | each artifact key determines its video |
| VideoService.ArtifactsAvoidUploads | server/app/services/video_service.py:288-291 | no artifact key is an upload key, so saving a transcript never replaces an upload |
| VideoService.FullTranscriptBlank | server/app/services/video_service.py:323-339 | the full text of a segment list is empty exactly when every segment is blank |
| VideoService.FullTranscriptOfOne | server/app/services/video_service.py:332-339 | one non-blank segment's full text is that segment stripped |
| VideoService.FullTranscript | server/app/services/video_service.py:323-339 | a plain string is its own full text; a segment list's full text is empty exactly when no segment text survives |
| VideoService.TranscriptDataFor | server/app/services/video_service.py:296-321 | the returned statistics count the characters and words of the full text and the segments, with the three artifact keys of the video |
| VideoService.MetadataFor | server/app/services/video_service.py:296-304 | the metadata document carries the video id, the creation time and the same statistics and keys as the returned data |
| VideoService.StoredArtifacts | server/app/services/video_service.py:307-310 | saving touches only the video's three artifact keys; when nothing is refused all three are written in order, and when the first is refused the bucket is unchanged |
| VideoService.SavedArtifactsReadBack | server/app/services/video_service.py:307-310 | after a successful save the text key reads back as the full transcript and the other two as their documents |
| VideoService.SavedRecordIsOwned | server/app/services/video_service.py:58-73 | a record written by `save_video_metadata` is owned by its uploader |
| VideoService.StubIsOwnedByNobody | server/app/services/video_service.py:134-139 | a record holding only a key and one other attribute is owned by nobody |
| VideoService.DownloadFailure | server/app/services/video_service.py:203-204 | a failed download becomes a `ValueError` whose message begins "Failed to download file from S3: " |
| VideoService.Download | server/app/services/video_service.py:199-204 | the download succeeds exactly when the record has a non-empty `s3_key` that is reachable and stored, and yields that object; a record without one is a parameter-validation error |
| VideoService.Refusal | server/app/services/video_service.py:188-204 | the run goes on exactly for an owned record with a truthy `s3_key`, a `filename` and a successful download; a missing record raises "File not found", another owner's "Not allowed"; every refusal is a `ValueError` or the `KeyError` of a missing `filename` |
| VideoService.Attempted | server/app/services/video_service.py:214-228 | without `file_type` a `KeyError` before any put; otherwise the artifacts are saved, and the step yields the compressed text exactly when the save and the compression succeed, else `KeyError`, AccessDenied or `AttributeError` |
| VideoService.Marked | server/app/services/video_service.py:207-242 | the record with its status set to the given one and every other attribute unchanged |
| VideoService.Finished | server/app/services/video_service.py:206-264 | a run past the checks leaves the bucket of its step, writes "processing" first, returns exactly when it writes "completed", and changes no other record |
| VideoService.FinishedResult | server/app/services/video_service.py:214-264 | the run returns exactly when the step succeeded and neither the transcript write nor the "completed" write was refused, and then returns the summary; otherwise it raises what the step raised or the `ClientError` of a refused write |
| VideoService.FinishedStatuses | server/app/services/video_service.py:207-259 | the statuses are "processing" alone, "processing" then "error" (exactly for a failed step whose "error" write goes through), or "processing" then "completed" (exactly for a successful step whose two writes go through) |
| VideoService.FinishedCases | server/app/services/video_service.py:214-264 | the five ends of a run past the checks: a failed step with a refused "error" write leaves "processing"; a failed step otherwise ends in "error" and re-raises; a refused transcript write leaves "processing"; a refused "completed" write leaves the transcript fields over "processing"; otherwise the completed record and the summary |
| VideoService.ProcessOutcome | server/app/services/video_service.py:184-280 | a run that writes no status raises and leaves the table and the bucket as they were; a run that writes any starts with "processing" on a stored record |
| VideoService.FinishedOverProcessing | server/app/services/video_service.py:207-259 | the status "processing" written before the `try` block leaves no trace in the final record, and the run writes "processing" followed by at most one more status |
| VideoService.ProcessRunShape | server/app/services/video_service.py:184-280 | a run has one of four shapes: refused with nothing written; "processing" then "error", re-raising; "processing" then "completed", returning the summary; or "processing" alone, raising the `ClientError` of a refused "error", transcript or "completed" write. Only refusals raise `ValueError`; a run writes anything exactly when both reads and the "processing" write go through, the record is owned, has a truthy `s3_key` and a `filename`, and the download succeeds |
| VideoService.FailedRunMarksError | server/app/services/video_service.py:232-242 | a run that writes "processing" then "error" keeps every field of the record, sets its status to "error", and re-raises what the stage raised |
| VideoService.RefusedWriteLeavesProcessing | server/app/services/video_service.py:207-264 | a run that writes only "processing" raises the `ClientError` and leaves the record "processing": with nothing else changed, or, when only the "completed" write was refused, with the transcript fields saved; once `file_type` was read the artifacts are in the bucket |
| VideoService.DemoTranscriptEndsInError | server/app/services/video_service.py:224-242 | when transcription returns the demo text, a run past the checks raises: it ends in "error" with the stage's exception, or stays "processing" with the `ClientError` when the "error" write is refused |
| VideoService.StubRecordIsRefused | server/app/services/video_service.py:188-192 | a stub record left by an upsert is refused with "Not allowed" and nothing is written |
| VideoService.CompletedFieldsSpelled | server/app/services/video_service.py:246-257 | a successful run writes the compressed transcript, the summary, the three statistics and the three artifact keys, in that order |
| VideoService.CompletedFieldsAvoid | server/app/services/video_service.py:246-257 | the written fields do not include `status`, `s3_key` or `owner_username` |
| VideoService.CompletedFieldsValues | server/app/services/video_service.py:246-257 | the summary and the three artifact keys are written as given |
| VideoService.CompletedRecord | server/app/services/video_service.py:246-259 | a successful run leaves a found record, "completed", still owned by the caller, with the summary, the text key, the same `s3_key`, and all three artifact keys among the keys a deletion removes |
| VideoService.SuccessfulRun | server/app/services/video_service.py:184-280 | a successful run had an owned record, a successful save and a successful compression; it returns the summary of the compressed text and leaves the saved bucket and the completed record |
| VideoService.CompletedRunServesResults | server/app/services/video_service.py:341-364 | after a successful run, reading the record back serves the full transcript and the returned summary, and the record names all three artifacts for a later deletion |
| VideoService.ServedRecord | server/app/services/video_service.py:341-364 | a completed, owned record whose text key reads back as text serves that text and its summary |
| VideoService.CachedInfo | server/app/services/video_service.py:85-88 | a cache hit is a stored, non-empty record; a miss happens exactly when the client is down, the call fails, the key is absent or the stored record is empty |
| VideoService.InfoRead | server/app/services/video_service.py:82-100 | the table is read only on a cache miss; a refused read raises its `ClientError`; otherwise the cached record or, on a miss, the stored one |
| VideoService.TranscriptOf | server/app/services/video_service.py:341-356 | a transcript is served only for a completed record the caller owns, and it is the text stored under the record's text key |
| VideoService.SummaryOf | server/app/services/video_service.py:358-364 | a summary is served only for a completed record the caller owns, and it is the record's summary |
| VideoService.KeptOrDroppedTwice | server/app/services/video_service.py:209-264 | two invalidations of one key, each keeping or dropping it, amount to one |
| VideoService.VideoService.constructor | server/app/services/video_service.py:23-32 | the service holds the given repository, bucket, cache and compressor and has written no status |
| VideoService.VideoService.InvalidateIfAvailable | server/app/services/video_service.py:76-78 | with the client up, the video's cache entry is dropped; without it nothing changes; the client's state is kept |
| VideoService.VideoService.WriteStatus | server/app/services/video_service.py:207-212 | a refused write raises its `ClientError` and changes nothing; otherwise only the status of the video's record is set (an absent record becomes a stub), the status is logged, and the cache entry is dropped |
| VideoService.VideoService.SaveVideoMetadata | server/app/services/video_service.py:58-80 | a refused write raises its `ClientError` and changes nothing; otherwise returns the file id, the video's record becomes the "uploaded" metadata record typed by its extension, and the cache entry is dropped |
| VideoService.VideoService.GetVideoInfo | server/app/services/video_service.py:82-127 | a cache hit is returned as stored, without reading the table; otherwise a refused read raises its `ClientError`, and a stored record is returned and cached with the default TTL when the client is up |
| VideoService.VideoService.GetAllVideos | server/app/services/video_service.py:129-132 | the projected items of the first page of the owner's records |
| VideoService.VideoService.AssertOwnership | server/app/services/video_service.py:134-139 | a refused read raises its `ClientError`; otherwise true exactly when the record is found and its owner is the caller |
| VideoService.VideoService.DeleteVideo | server/app/services/video_service.py:141-182 | a refused read raises and changes nothing; a record the caller does not own gives false and changes nothing; for an owned record every reachable object it names is deleted, then a refused delete raises and leaves the record, and otherwise the record is deleted, the cache entry dropped and true returned |
| VideoService.VideoService.DeleteObjectsOf | server/app/services/video_service.py:153-173 | removes exactly the reachable object keys the record names |
| VideoService.VideoService.ExtractFullTranscript | server/app/services/video_service.py:323-339 | returns the full transcript: a plain string as it is, else the stripped non-blank segment texts joined by spaces |
| VideoService.VideoService.SaveTranscript | server/app/services/video_service.py:282-321 | the bucket is that of the three puts in order, stopping at the first refused one; the result is the transcript data, or AccessDenied when a put was refused |
| VideoService.VideoService.ProcessVideo | server/app/services/video_service.py:184-280 | the result, the statuses written, the table and the bucket are those of the `process_video` specification, including the runs a refused table call stops; the cache entry is dropped whenever a status was written |
| VideoService.VideoService.ProcessDownloaded | server/app/services/video_service.py:206-280 | a refused "processing" write raises and changes nothing; otherwise the result, statuses, table and bucket are those of the finished run of the attempted step |
| VideoService.VideoService.Conclude | server/app/services/video_service.py:232-264 | after the step, the result, the later statuses and the final record are those of the finished run |
| VideoService.VideoService.Fail | server/app/services/video_service.py:232-242 | a refused "error" write raises its `ClientError` and leaves the record "processing"; otherwise the record becomes "error", the status is logged and the cache entry dropped |
| VideoService.VideoService.Complete | server/app/services/video_service.py:244-264 | the result, the later statuses and the final record are those of a finished successful step: a refused transcript write leaves "processing", a refused "completed" write leaves the transcript fields over "processing", and otherwise the completed record with the summary returned |
| VideoService.VideoService.MarkCompleted | server/app/services/video_service.py:258-264 | over the record holding the transcript fields, a refused "completed" write raises its `ClientError` and changes nothing; otherwise the record becomes the completed one and "completed" is logged |
| VideoService.VideoService.SaveResults | server/app/services/video_service.py:246-257 | a refused transcript write raises its `ClientError` and leaves the record "processing"; otherwise the transcript fields are written over it |
| VideoService.VideoService.Attempt | server/app/services/video_service.py:214-228 | the step and the bucket are those the attempted-step specification gives, and the transcript data is that of the video |
| VideoService.VideoService.GetTranscript | server/app/services/video_service.py:341-356 | a refused read on a cache miss raises its `ClientError`; otherwise the transcript of the record the cache or the table yields, as the transcript specification gives |
| VideoService.VideoService.GetSummary | server/app/services/video_service.py:358-364 | a refused read on a cache miss raises its `ClientError`; otherwise the summary of the record the cache or the table yields, as the summary specification gives |
| TextCompressor.SegmentTexts | server/app/services/text_compressor.py:30-33 | at most one text per segment is kept, and none of them is empty |
| TextCompressor.CollectSegmentTexts | server/app/services/text_compressor.py:29-33 | the loop collects exactly the stripped non-blank segment texts, in order |
| TextCompressor.SegmentTextsEmptyIff | server/app/services/text_compressor.py:35-37 | no segment text survives exactly when every segment's text is blank |
| TextCompressor.DropPunct | server/app/services/text_compressor.py:111 | removes exactly the leading run of `.`, `!`, `?`; what remains starts with another character or is empty |
| TextCompressor.CollapseSpace | server/app/services/text_compressor.py:108 | every maximal run of white space becomes one blank: empty exactly for empty input, the ends map to the input's ends, every white space left is a single blank and no two blanks are adjacent, and no new character appears |
| TextCompressor.CollapsePunct | server/app/services/text_compressor.py:111 | every maximal run of `.`, `!`, `?` becomes one full stop: empty exactly for empty input, the ends map to the input's ends, no `!` or `?` remains, and no new character appears but the full stop |
| TextCompressor.CollapsePunctSingleMarks | server/app/services/text_compressor.py:111 | after the substitution no two punctuation marks are adjacent |
| TextCompressor.CollapsePunctKeepsSingleBlanks | server/app/services/text_compressor.py:108-111 | the punctuation substitution never brings two blanks together |
| TextCompressor.CollapsedAfterSubstitutions | server/app/services/text_compressor.py:107-111 | the two substitutions leave no white space at the ends, only single blanks, no `!` or `?` and no two full stops in a row |
| TextCompressor.ClosingStop | server/app/services/text_compressor.py:113-115 | adding the closing full stop to the substituted text gives normalised text |
| TextCompressor.NormalizeText | server/app/services/text_compressor.py:105-117 | `_normalize_text` yields normalised text: no white space at the ends, single blanks, no `!` or `?`, no doubled full stop, and a closing full stop unless empty |
| TextCompressor.CollapseSpaceFixed | server/app/services/text_compressor.py:108 | text with only single blanks is left as it is by the white-space substitution |
| TextCompressor.CollapsePunctFixed | server/app/services/text_compressor.py:111 | text without `!`, `?` or a doubled full stop is left as it is by the punctuation substitution |
| TextCompressor.NormalizedIsFixed | server/app/services/text_compressor.py:105-117 | normalised text is its own normal form |
| TextCompressor.NormalizeTextIdempotent | server/app/services/text_compressor.py:105-117 | normalising twice is normalising once |
| TextCompressor.Keep | server/app/services/text_compressor.py:97-100 | a text is added exactly when it is new and longer than 25 characters once stripped; otherwise nothing changes |
| TextCompressor.PreprocessedBy | server/app/services/text_compressor.py:91-100 | the loop keeps at most one text per input, each longer than 25 characters once stripped |
| TextCompressor.Preprocessed | server/app/services/text_compressor.py:87-103 | `_preprocess_texts` keeps at most one text per input, no text twice, each longer than 25 characters once stripped |
| TextCompressor.PreprocessedDistinct | server/app/services/text_compressor.py:91-100 | no text is kept twice |
| TextCompressor.PreprocessedFrom | server/app/services/text_compressor.py:93-100 | every kept text is the normal form of some input and longer than 25 characters once stripped |
| TextCompressor.PreprocessedComplete | server/app/services/text_compressor.py:93-100 | every input whose normal form is long enough is kept |
| TextCompressor.PreprocessedShape | server/app/services/text_compressor.py:87-103 | `_preprocess_texts` keeps distinct normalised texts, each longer than 25 characters once stripped, and represents every input whose normal form is that long |
| TextCompressor.PreprocessedPrefix | server/app/services/text_compressor.py:93-100 | later inputs only append, so first occurrences keep their order |
| TextCompressor.OptimalNumSelect | server/app/services/text_compressor.py:61-85 | up to 20 texts, all are kept; above 20, at least 10 and strictly fewer than all |
| TextCompressor.Choose | server/app/services/text_compressor.py:180-181 | the chosen position lies within the remaining indices |
| TextCompressor.RemoveAt | server/app/services/text_compressor.py:160 | removing one element shortens the list by one |
| TextCompressor.Range | server/app/services/text_compressor.py:154 | `range(n)` lists 0 to n-1 in order |
| TextCompressor.RemoveAtElements | server/app/services/text_compressor.py:160 | removing an element adds none and, in a list without duplicates, takes that element out |
| TextCompressor.MmrLoopShape | server/app/services/text_compressor.py:163-183 | the loop extends the selection, keeps it free of duplicates and within range, and stops at `num_select` texts or when none remain |
| TextCompressor.MmrSelection | server/app/services/text_compressor.py:152-183 | MMR picks max(1, min(num_select, len(texts))) distinct positions of the texts |
| TextCompressor.Pick | server/app/services/text_compressor.py:186 | the selected texts are the texts at the selected positions, in selection order |
| TextCompressor.Representatives | server/app/services/text_compressor.py:119-188 | the input itself when there is at most one text or nothing to drop; otherwise max(1, num_select) texts, each the text at one of the distinct positions MMR picked |
| TextCompressor.Compressed | server/app/services/text_compressor.py:25-59 | only a non-empty text that is not a segment list raises, and what it raises is `AttributeError`; a segment list always compresses to a string |
| TextCompressor.CompressedSegments | server/app/services/text_compressor.py:25-59 | segments without text compress to ""; up to three kept texts are all joined in order |
| TextCompressor.CompressedBlank | server/app/services/text_compressor.py:35-37 | blank segments compress to the empty string |
| TextCompressor.CompressedShort | server/app/services/text_compressor.py:45-47 | up to 20 kept texts are all joined in order |
| TextCompressor.CompressedLong | server/app/services/text_compressor.py:49-59 | above 20 kept texts, MMR keeps the optimal number of them, strictly fewer, each one of the kept texts |
| TextCompressor.DemoTranscriptRaises | server/app/services/text_compressor.py:31-32 | the demo text is not a segment list, so compressing it raises `AttributeError` |
| TextCompressor.TextCompressor.constructor | server/app/services/text_compressor.py:19-23 | the compressor starts with an empty embeddings cache and has encoded nothing |
| TextCompressor.TextCompressor.GetEmbeddings | server/app/services/text_compressor.py:190-206 | each text gets its encoder embedding and ends up cached and in the encoding log; only texts not seen before are encoded, once each, so the log grows by exactly the new distinct texts |
| TextCompressor.TextCompressor.PreprocessTexts | server/app/services/text_compressor.py:87-103 | the loop computes exactly the preprocessing specification |
| TextCompressor.TextCompressor.SelectIndices | server/app/services/text_compressor.py:152-183 | the index loop computes exactly the MMR selection |
| TextCompressor.TextCompressor.SelectRepresentativeTexts | server/app/services/text_compressor.py:119-188 | the result is the representatives specification, and only the given texts are newly encoded |
| TextCompressor.TextCompressor.CompressSegments | server/app/services/text_compressor.py:25-59 | the result is the compression specification, and texts encoded before stay encoded |
| Summary.SentText | server/app/services/summary_generator.py:24-30 | the text sent is a prefix of the stripped transcript, as long as it or 4000 characters, whichever is less |
| Summary.GenerateSummary | server/app/services/summary_generator.py:20-71 | a blank transcript gives ""; otherwise the summary is the model's non-empty completion, stripped, or else the whole stripped transcript, which it is whenever the model gives no completion or an empty one |
| Summary.BlankTranscript | server/app/services/summary_generator.py:24-26 | a blank or absent transcript summarises to "" and the model is not consulted |
| Summary.OnlyThePromptMatters | server/app/services/summary_generator.py:44-57 | the summary depends on the model only through its answer to the prompt built from the cut text |
| Summary.CompletionIsSummary | server/app/services/summary_generator.py:63-66 | a non-empty completion, stripped, is the summary |
| Summary.FallbackIsWholeTranscript | server/app/services/summary_generator.py:67-71 | an API error, no choices or an empty completion give the whole stripped transcript, not the cut one, and no error escapes |
| Summary.LongTranscriptIsCut | server/app/services/summary_generator.py:29-30 | a transcript longer than 4000 characters is cut to its first 4000 before the model sees it |
| AwsConfig.EnvFallback | server/app/core/aws_config.py:43-48 | a fallback value exists exactly when the variable is named, set and non-empty, and it is that variable's value |
| AwsConfig.NoValue | server/app/core/aws_config.py:49 | the error raised when no value can be had is a `ValueError` |
| AwsConfig.Fetch | server/app/core/aws_config.py:37-116 | a cached value is returned without calling the store; otherwise the store is called exactly when its client exists; only a value the store returned is cached, under its name; without a client or after a `ClientError` the fallback variable is used, or a `ValueError` raised; any other exception propagates with the cache unchanged, and nothing else is ever raised |
| AwsConfig.CachedValueSticks | server/app/core/aws_config.py:39-40 | once a value from the store is cached, later lookups of that name return it without calling the store, whatever the store or the environment would now say; a fallback value is not cached |
| AwsConfig.EmptyEnvIsUnset | server/app/core/aws_config.py:45-46 | an empty fallback variable counts as unset, so only the store can then give a value |
| AwsConfig.FetchKeepsMirror | server/app/core/aws_config.py:53-54 | every cache entry stays a value the store gave under that name |
| AwsConfig.AwsConfigManager.constructor | server/app/core/aws_config.py:16-35 | the manager starts with both caches empty and with both clients or neither |
| AwsConfig.AwsConfigManager.GetSecret | server/app/core/aws_config.py:37-74 | the result and the secrets cache are those of the lookup specification against Secrets Manager; the parameters cache is untouched |
| AwsConfig.AwsConfigManager.GetParameter | server/app/core/aws_config.py:76-116 | the result and the parameters cache are those of the lookup specification against Parameter Store; the secrets cache is untouched |
| AwsConfig.AwsConfigManager.FromFallback | server/app/core/aws_config.py:66-74 | the fallback value when there is one, else the `ValueError` |
| Settings.Initial | server/app/core/config.py:32-90 | before loading, each setting is its process-environment variable if set, else its `.env` entry if present, else its class default |
| Settings.StepsInOrder | server/app/core/config.py:92-215 | the fourteen loading blocks name distinct settings, so each setting is visited at most once |
| Settings.Updated | server/app/core/config.py:96-215 | after its lookup, a setting holds either the answer or its current value; a non-empty answer always wins, an empty answer leaves a guarded or change-only setting at its current value, and an unguarded setting takes the answer even when it is empty |
| Settings.Apply | server/app/core/config.py:92-219 | one block changes no other setting, does nothing once loading is over, and ends loading only when its lookup raised |
| Settings.Run | server/app/core/config.py:92-219 | the blocks do nothing once an exception has left the outer `try` |
| Settings.LoadFrom | server/app/core/config.py:92-219 | loading does nothing once abandoned, and a setting whose current value needs no lookup keeps it |
| Settings.Load | server/app/core/config.py:84-219 | every setting whose initial value needs no lookup keeps that value after loading |
| Settings.RunStep | server/app/core/config.py:94-219 | the blocks run one after another and the first that raises ends loading |
| Settings.RunKeeps | server/app/core/config.py:92-219 | a setting is changed only by its own block, and not at all when that block does not consult the store |
| Settings.GivenSettingsWin | server/app/core/config.py:96-142 | a non-empty, non-default value given through the environment or `.env` for a setting looked up only when empty (or default) survives loading |
| Settings.RunConcat | server/app/core/config.py:92-219 | running two lists of blocks is running the first and then the second |
| Settings.AbandonedRestKept | server/app/core/config.py:216-219 | once a block raised outside an inner `try`, the result is the state at that point and the settings not reached keep their values |
| Settings.LoadStopsAtRaise | server/app/core/config.py:92-219 | when the block of the i-th setting raises, every later setting keeps its initial value |
| Settings.GuardedStepContinues | server/app/core/config.py:144-200 | the Cognito and URL blocks catch the `ValueError` of a failed lookup, so only another kind of exception ends loading there |
| Settings.NoClientsNoKey | server/app/core/config.py:94-100 | with no AWS client and no OpenAI key, the first lookup raises, no other setting is looked up and both caches stay empty |
| Settings.DotenvModelStopsLoading | server/app/core/config.py:102-106 | the default model name given only through `.env` is looked up, the fallback reads the process environment and finds nothing, and loading ends there |
| Settings.ApplyFills | server/app/core/config.py:92-215 | a consulting block whose lookup returns a non-empty value sets the setting to it and keeps the cached values equal to the store's answers |
| Settings.StoreFills | server/app/core/config.py:92-215 | when the store answers every consulted name with a non-empty value, each consulting setting ends as its store value |
| Settings.CompleteStoreFillsAll | server/app/core/config.py:84-219 | from an empty environment and a complete store, every setting ends as the store's value |
| Settings.AllFieldsListed | server/app/core/config.py:92-215 | every setting that loading may change has a block |
| Settings.AllowedOriginsList | server/app/core/config.py:221-226 | the allowed-origins list has one entry per comma-separated piece, empty pieces included, and each entry is its piece stripped of surrounding white space |
| Settings.StripEach | server/app/core/config.py:225 | stripping keeps the number of pieces, and each entry is its own piece stripped |
| Settings.StripEachStripped | server/app/core/config.py:225 | pieces without surrounding white space are left unchanged |
| Settings.OriginsStripped | server/app/core/config.py:221-226 | origins without commas, joined by commas, read back one per entry, each stripped of the white space around it |
| Settings.OriginsRoundTrip | server/app/core/config.py:221-226 | origins without commas or surrounding white space, joined by commas, read back as the same list |
| Settings.AppSettings.constructor | server/app/core/config.py:84-90 | building the settings leaves the values and both caches of the new manager as the loading function says |
| Settings.AppSettings.LoadAwsConfig | server/app/core/config.py:92-219 | the method leaves the settings and the manager's caches as the loading function computes from the old state |
| Settings.AppSettings.ApplyStep | server/app/core/config.py:94-215 | one block leaves the state that `Apply` computes and reports whether loading goes on |
| Settings.AppSettings.Lookup | server/app/core/config.py:97-100 | the block's `get_secret` or `get_parameter` call returns the lookup's result and updates only the cache of its own kind |
| Settings.ConfigModule.constructor | server/app/core/config.py:234-235 | the module-level instance is a new object holding the loaded settings |
| Settings.ConfigModule.GetSettings | server/app/core/config.py:238-240 | every call returns that same instance |
| CognitoAuth.GetOr | server/app/core/cognito_auth.py:50 | `d.get(k, default)` is the value under `k` when present, the default otherwise |
| CognitoAuth.FirstWithKid | server/app/core/cognito_auth.py:59-63 | a key is found exactly when some key carries the header's `kid`, and it is the first such key |
| CognitoAuth.UserInfoOf | server/app/core/cognito_auth.py:120-129 | the user information has exactly the eight listed keys, each the payload's claim or its default (`False` for `email_verified`, `[]` for the groups, `None` otherwise) |
| CognitoAuth.UserInfoIsNonEmpty | server/app/core/cognito_auth.py:116-129 | the user information built from any payload is a non-empty, hence truthy, dict |
| CognitoAuth.FreshForAnHour | server/app/core/cognito_auth.py:29-33 | a cached key set is refetched exactly when more than 3600 seconds have passed; exactly 3600 seconds still reuses it; a missing cache or timestamp always fetches |
| CognitoAuth.IdTokenIsRefused | server/app/core/cognito_auth.py:94-95 | a payload whose `token_use` is "id" is not accepted as an access token |
| CognitoAuth.CognitoJwtVerifier.constructor | server/app/core/cognito_auth.py:17-23 | the verifier holds the pool id, client id and region it was built with, and starts with no cached key set and no timestamp |
| CognitoAuth.CognitoJwtVerifier.GetJwks | server/app/core/cognito_auth.py:25-43 | a fresh cache is returned unchanged; otherwise a successful fetch becomes the cache, stamped with the current time; a failed fetch raises and leaves the cache as it was |
| CognitoAuth.CognitoJwtVerifier.GetSigningKey | server/app/core/cognito_auth.py:45-66 | a malformed token or a missing or empty `kid` gives no key and no fetch; a failed fetch is the only exception, and a stale cache whose refetch fails raises it; otherwise the result is the first cached key with the header's `kid` |
| CognitoAuth.CognitoJwtVerifier.VerifyToken | server/app/core/cognito_auth.py:68-104 | a payload is returned only when the signing key is found, the library decodes the token with RS256 against this pool's issuer and client id, and `token_use` is "access"; every failure is `None`, and a stale cache whose refetch fails gives `None` |
| CognitoAuth.CognitoJwtVerifier.GetUserInfoFromToken | server/app/core/cognito_auth.py:106-129 | user information is returned exactly for a verified, non-empty access-token payload, and it is the dict built from that payload; a malformed token, a missing `kid` or a stale cache whose refetch fails gives `None` |
| Dependencies.GetCurrentUser | server/app/core/dependencies.py:14-39 | a request gets a current user exactly when the verifier returned a non-empty dict, and it is that dict; otherwise 401 "Invalid authentication token" |
| Dependencies.GetCurrentUserOptional | server/app/core/dependencies.py:42-58 | no credentials give no user; with credentials the verifier's answer is returned unchecked. The `HTTPBearer()` scheme refuses a request without credentials before this function runs, so the first case is not reached through the dependency |
| Dependencies.AdminIn | server/app/core/dependencies.py:77-78 | `'admin' in groups` is list membership for a list, a substring search for a string, and a `TypeError` for any other value |
| Dependencies.RequireAdminUser | server/app/core/dependencies.py:61-84 | the user passes through unchanged exactly when "admin" is in its groups (missing groups count as `[]`); otherwise 403 "Admin access required" |
| Dependencies.RequireVerifiedEmail | server/app/core/dependencies.py:87-108 | the user passes through unchanged exactly when `email_verified` (missing counts as `False`) is truthy; otherwise 403 "Email verification required" |
| Dependencies.VerifiedPayloadIsCurrentUser | server/app/core/dependencies.py:31-39 | every payload the verifier accepts yields a current user, namely the user information built from it |
| Dependencies.AdminGuardOnTokens | server/app/core/dependencies.py:77-84 | through the user information, a token without `cognito:groups` is refused with 403, and a token whose groups are a list passes exactly when the list holds "admin" |
| Dependencies.SubstringGroupPasses | server/app/core/dependencies.py:77-78 | a groups claim that is the plain string "sysadmins" passes the admin guard, because `in` on a string searches substrings |
| Dependencies.VerifiedEmailGuardOnTokens | server/app/core/dependencies.py:102-108 | through the user information, a token without `email_verified` is refused with 403 and one whose claim is `true` passes |
| Security.WithoutPassword | server/app/core/security.py:55-57 | the copy has no `password` key and keeps every other key with its value |
| Security.AuthenticateUser | server/app/core/security.py:52-59 | a login succeeds exactly for a known user with the stored password, and returns that user's record without its password |
| Security.GetUserByUsername | server/app/core/security.py:61-67 | a record is returned exactly for a known user, and it is the stored record without its password |
| Security.GetAllUsers | server/app/core/security.py:69-80 | every role other than "admin" gets `None`; for "admin" the loop calls `.copy()` on a (name, record) tuple and raises `AttributeError` |
| Security.IsAdmin | server/app/core/security.py:82-86 | true exactly for a known user whose role is "admin" |
| Security.GetUserRole | server/app/core/security.py:88-92 | a role is returned exactly for a known user, and it is that user's stored role |
| Security.RoleAndAdminAgree | server/app/core/security.py:17-42 | `is_admin` holds exactly when `get_user_role` answers "admin", and no known user has an empty role |
| Security.ExactlyOneAdmin | server/app/core/security.py:17-42 | in the fixed table exactly one user, "admin", has the admin role |
| Security.LoginMatchesLookup | server/app/core/security.py:52-67 | a successful login returns the same record as the look-up by name, and a name has a record exactly when it has a role |
| Security.BuiltInLogins | server/app/core/security.py:17-59 | the four built-in accounts log in with their own passwords, and "admin" refuses another user's password |
| Security.VerifyToken | server/app/core/security.py:106-115 | given the decoder's payload, the result is present exactly when the payload has a `sub`, and it is `{"username": sub}` |
| Security.VerifyTokenAsWritten | server/app/core/security.py:106-115 | reading the key and algorithm from the settings raises `AttributeError`, uncaught by the `JWTError` handler, exactly when either attribute is missing; otherwise the result is `VerifyToken`'s |
| Security.VerifyTokenAlwaysRaises | server/app/core/config.py:32-82 | the settings class declares neither `SECRET_KEY` nor `ALGORITHM`, so verifying any token raises `AttributeError` |
| Admin.GetCurrentUserRole | server/app/api/v1/admin.py:12-37 | a missing or empty token is 401 "Could not validate credentials", a missing or empty username 401 "Invalid token", an unknown user 401 "User not found"; otherwise the user's role |
| Admin.Respond | server/app/api/v1/admin.py:45-58 | a role other than "admin" is 403; for "admin" the listing is returned when present, its absence is 403 "Access denied", and its exception propagates |
| Admin.GetUsers | server/app/api/v1/admin.py:39-58 | a non-admin caller is refused with 403, and the admin's call fails with the `AttributeError` of the listing |
| Admin.RoleFromToken | server/app/api/v1/admin.py:12-37 | with `verify_token` as intended, a verified token yields a role exactly when its subject is a known user, that role is the user's own, and a token without subject is 401 |
| Admin.ListingNeverSucceeds | server/app/api/v1/admin.py:12-58 | with `verify_token` as intended, no request ever gets the user list: known non-admins get 403, the admin gets the listing's `AttributeError` |
| Admin.ListUsersRequest | server/app/api/v1/admin.py:12-58 | with `verify_token` as intended, every request raises: 401 from the role dependency, 403 for a non-admin, or the listing's `AttributeError` for the admin |
| Admin.ListUsersRequestAsWritten | server/app/api/v1/admin.py:12-58 | with `verify_token` as written, a settings object without the key or algorithm makes every request raise `AttributeError` before any 401 or 403; with both it is the request as intended |
| Admin.EveryRequestRaisesAsWritten | server/app/core/security.py:106-115 | as written, every request that reaches `verify_token` raises `AttributeError`, even the one from "user1" that would otherwise be refused with 403; a request without the `token` query parameter is refused with 422 before it |
| VideosApi.GetPresignedUrl | server/app/api/v1/videos.py:18-57 | an empty name is 400; an extension (after the last dot, lower-cased) outside the thirteen formats is 400; a signing error is 500 with its text; otherwise the upload under `videos/<id>_<name>` |
| VideosApi.FormatsAgree | server/app/api/v1/videos.py:34-39 | the endpoint's formats are the settings' allowed extensions and include every extension the service treats as audio |
| VideosApi.BareUpperCaseName | server/app/api/v1/videos.py:32 | a name without a dot is judged by the whole lower-cased name, so "MP4" is accepted |
| VideosApi.UpperCaseExtension | server/app/api/v1/videos.py:32 | the extension is lower-cased before the test, so a ".MOV" name is accepted |
| VideosApi.LastExtensionIsJudged | server/app/api/v1/videos.py:32-44 | only the last extension counts: a ".mp4.exe" name is refused as an invalid format |
| VideosApi.GetVideos | server/app/api/v1/videos.py:85-97 | the listing succeeds only when the owner has no videos (an empty list); any video makes the missing `VideoInfo.from_domain` raise, reported as 500 |
| VideosApi.GetVideoInfo | server/app/api/v1/videos.py:99-117 | the endpoint never answers with a record: nothing found is 404, and a found record (a dict) raises `AttributeError` on the attribute read |
| VideosApi.DeleteVideo | server/app/api/v1/videos.py:119-132 | the answer is 204 exactly when the service deleted the video, and 404 otherwise |
| VideosApi.GetTranscriptText | server/app/api/v1/videos.py:135-147 | the transcript is served exactly when the service returned non-empty text, as that text; otherwise 404 |
| VideosApi.GetSummary | server/app/api/v1/videos.py:149-162 | the answer is `{"summary": s}` exactly when the service returned a truthy summary `s`; otherwise 404 |
| VideosApi.ServedTranscriptIsStored | server/app/api/v1/videos.py:135-147 | a served transcript belongs to a completed record the caller owns, is non-empty, and is the text stored under the record's text key |
| VideosApi.UnfinishedResultsAre404 | server/app/api/v1/videos.py:135-162 | a record that is not completed, or owned by someone else, gets 404 from both the transcript and the summary endpoints |

## Left out

- The video endpoints are modelled as if `server/app/schemas/video.py` defined `PresignedUrlResponse` and `VideoMetadataRequest`. It does not, so importing `server/app/api/v1/videos.py`, and with it `server/app/api/v1/api.py`, raises `ImportError`, and as written none of the `VideosApi` endpoints (nor the admin endpoint, routed through the same module) is ever served.
- VideoService.VideoService.GetTranscript: only a plain-text blob at the text key is served, where `get_transcript` decodes any UTF-8 body found there, a JSON document included. Within the model the text key only ever receives plain text (`VideoService.ArtifactKindsApart`), so the two agree on every reachable bucket.
- The code of boto3, Whisper, ffmpeg, OpenAI, sentence-transformers, `jose` and `requests` is not modelled, because it lies outside the repository. A call's answer, or whether it is refused, is a parameter. A refused DynamoDB call raises one `ClientError`, with the code "ServiceUnavailable"; which error code the service gives is not modelled. A `BotoCoreError` (a connection failure, say), which the `except ClientError` handlers of the trigger's status write and send, the repository and the worker would not catch, is not modelled either: every refused boto3 call is a `ClientError`.
- MMR scoring (embeddings, cosine similarity, float argmax) is not modelled. The choice among the remaining indices is a parameter, clamped to those indices, and only the index bookkeeping is proved.
- The monitor thread of `process_with_timeout_management` is not modelled. That function returns `process_video`'s result unchanged, so the worker calls `process_video` directly.
- Signal delivery, `time.sleep` and the sleeping outer `run` loops of both workers are not modelled, because they are concurrency and timing. A signal is a position in the batch, and the retry loop of the metadata look-up records its sleeps rather than taking them.
- The SQS wrappers beyond sending and deleting messages are not modelled: receiving, the dead-letter variants and `change_message_visibility`. Redelivery, visibility timeouts and the move to the dead-letter queue are queue configuration.
- `change_message_visibility` passes `VisibilityTimeoutSeconds` where boto3 expects `VisibilityTimeout`, so every request fails and the monitor only logs it. `Timeouts.MonitorAndExtendTimeout` therefore computes the requests and leaves out their outcome.
- Audio extraction and transcription (`audio_processor.py`) are not modelled. The transcriber is a parameter whose answer is a segment list or, as when Whisper fails, a plain string such as the demo transcript.
- Decoding a record read from the cache is not modelled, because that is pickle/`eval` deserialisation. A cache hit returns the stored record.
- JSON values are limited to null, booleans, integers, strings and lists, with DynamoDB attributes as strings and numbers. Identifiers that are non-integer numbers, booleans or lists are not represented; integer identifiers are `N(int)`. A DynamoDB number reads back as a `Decimal`, which `json.dumps` refuses; the trigger models that `TypeError`.
- The text of exceptions (`str(e)`) is modelled only for `ClientError`, reduced to its error code, and for the exception texts the endpoints pass on. Other messages and all logging are left out.
- The `WWW-Authenticate` header and the other HTTP plumbing of the endpoints are not modelled: routing, request parsing, response models.
- The `save_video_metadata` endpoint is not modelled, because it only forwards to `VideoService.save_video_metadata` (modelled) and wraps its exceptions in a 500.
- `verify_cognito_token` and `get_current_user_from_token` are not modelled, because they forward to `get_user_info_from_token` (modelled).
- `create_access_token`, `verify_password` and `get_password_hash` are not modelled, because they are JWT and bcrypt library calls.
- Security.VerifyToken: takes the decoder's answer as given; signature and expiry checking are the JWT library's. The missing signing key is modelled by `Security.VerifyTokenAsWritten`.
- The region and profile passed to the boto3 clients are not modelled, because they only choose the AWS endpoint.
- The constant application settings (application name, version, log format, upload directory) are not modelled, because no modelled operation reads them. The settings the model reads are kept: the extensions, the cache time-to-live and the fourteen loaded strings.
- Settings.AppSettings.LoadAwsConfig: the fourteen `if`/`try` blocks are written as one loop over a table of settings, each with its rule, store and name. The blocks run in the same order with the same tests.
- VideoRepository.VideoRepository.ListByOwner: the owner query's answer is a parameter that cannot be an error, so a refused query is not modelled, neither here nor in VideoService.VideoService.GetAllVideos, which lists through it.
- Common.Lower: lower-cases only the ASCII letters, where Python's `str.lower` folds all of Unicode. The two differ only on non-ASCII letters, a few of which (such as the Kelvin sign) lower-case to ASCII letters; file extensions and the cache's error mentions with such letters are not modelled.
- Cache.CacheService.Set: a successful client call is taken to return true. A false answer from `pymemcache` that raises nothing is not modelled.

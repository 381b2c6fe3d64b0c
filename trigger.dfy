// The ingestion Lambda: for each S3 upload event it recovers the video id
// from the object key, finds the metadata record (retrying while the API may
// not have written it yet), claims the video by setting "processing", and
// enqueues one job; a failed send reverts the status to "uploaded".

module S3Trigger {
  import opened Common
  import opened UpdateExpression
  import opened Store
  import opened Queue
  import S3Keys

  // ---------------------------------------------------------------------------
  // `get_video_metadata_from_dynamodb`

  /** What one metadata query yields: its `Items`, or a `ClientError`. */
  datatype QueryAnswer = Items(items: seq<Item>) | QueryFailed

  const DefaultMaxRetries: int := 3
  const DefaultRetryDelay: int := 2

  /** An answer that ends the retries with a record. */
  predicate Hit(a: QueryAnswer)
  {
    a.Items? && a.items != []
  }

  /** The lookup from attempt `attempt` on: the record found, and how many
      queries were made. A miss and a `ClientError` are handled alike. */
  function LookupFrom(answer: nat -> QueryAnswer, maxRetries: int, attempt: nat): (r: (Option<Item>, nat))
    ensures attempt < maxRetries ==> 1 <= r.1 <= maxRetries - attempt
    ensures attempt >= maxRetries ==> r == (None, 0)
    ensures r.0.Some? ==> Hit(answer(attempt + r.1 - 1)) && r.0.value == answer(attempt + r.1 - 1).items[0]
    decreases maxRetries - attempt
  {
    if attempt >= maxRetries then (None, 0)
    else if Hit(answer(attempt)) then (Some(answer(attempt).items[0]), 1)
    else if attempt < maxRetries - 1 then
      var rest := LookupFrom(answer, maxRetries, attempt + 1);
      (rest.0, rest.1 + 1)
    else (None, 1)
  }

  /** `get_video_metadata_from_dynamodb`, as the record found and the number
      of queries; `answer(i)` is what the `i`-th query returns (the table may
      gain the record between attempts). */
  function MetadataLookup(answer: nat -> QueryAnswer, maxRetries: int): (r: (Option<Item>, nat))
    ensures maxRetries >= 1 ==> 1 <= r.1 <= maxRetries
    ensures maxRetries < 1 ==> r == (None, 0)
    ensures r.0.Some? ==> Hit(answer(r.1 - 1)) && r.0.value == answer(r.1 - 1).items[0]
  {
    LookupFrom(answer, maxRetries, 0)
  }

  /** The first hit among the allowed attempts decides the result. */
  lemma {:induction false} LookupFindsFirstHit(answer: nat -> QueryAnswer, maxRetries: int, attempt: nat, i: nat)
    requires attempt <= i < maxRetries && Hit(answer(i))
    requires forall j :: attempt <= j < i ==> !Hit(answer(j))
    ensures LookupFrom(answer, maxRetries, attempt) == (Some(answer(i).items[0]), i - attempt + 1)
    decreases i - attempt
  {
    if attempt < i {
      LookupFindsFirstHit(answer, maxRetries, attempt + 1, i);
    }
  }

  /** Without a hit every allowed attempt is made and nothing is found; with
      `max_retries <= 0` no query is made at all. */
  lemma {:induction false} LookupExhausted(answer: nat -> QueryAnswer, maxRetries: int, attempt: nat)
    requires forall j :: attempt <= j < maxRetries ==> !Hit(answer(j))
    ensures LookupFrom(answer, maxRetries, attempt) == (None, if attempt < maxRetries then maxRetries - attempt else 0)
    decreases maxRetries - attempt
  {
    if attempt < maxRetries - 1 {
      LookupExhausted(answer, maxRetries, attempt + 1);
    }
  }

  /** `get_video_metadata_from_dynamodb`: at most `maxRetries` queries, a
      sleep of `retryDelay` between two attempts and never after the last one. */
  method GetVideoMetadata(answer: nat -> QueryAnswer, maxRetries: int, retryDelay: int)
    returns (r: Option<Item>, queries: nat, sleeps: seq<int>)
    ensures (r, queries) == MetadataLookup(answer, maxRetries)
    ensures queries <= Max(maxRetries, 0)
    ensures |sleeps| == (if queries == 0 then 0 else queries - 1)
    ensures forall i :: 0 <= i < |sleeps| ==> sleeps[i] == retryDelay
  {
    queries := 0;
    sleeps := [];
    var attempt: nat := 0;
    while attempt < maxRetries
      invariant attempt == queries == |sleeps|
      invariant attempt == 0 || attempt < maxRetries
      invariant forall i :: 0 <= i < |sleeps| ==> sleeps[i] == retryDelay
      invariant var rest := LookupFrom(answer, maxRetries, attempt);
                MetadataLookup(answer, maxRetries) == (rest.0, rest.1 + attempt)
      decreases maxRetries - attempt
    {
      var a := answer(attempt);
      ghost var next := LookupFrom(answer, maxRetries, attempt + 1);
      assert LookupFrom(answer, maxRetries, attempt)
             == if Hit(a) then (Some(a.items[0]), 1)
                else if attempt < maxRetries - 1 then (next.0, next.1 + 1)
                else (None, 1);
      queries := queries + 1;
      if a.Items? && a.items != [] {
        return Some(a.items[0]), queries, sleeps;
      }
      if attempt < maxRetries - 1 {
        sleeps := sleeps + [retryDelay];
      } else {
        return None, queries, sleeps;
      }
      attempt := attempt + 1;
    }
    r := None;
  }

  // ---------------------------------------------------------------------------
  // The job message

  /** The job message `send_message_to_sqs` enqueues; SQS assigns its id, used
      here as its receipt handle too. `now` is `time.time()`. */
  function JobMessage(videoId: string, ownerUsername: AttrValue, messageId: string, now: real): (r: Message)
    ensures r.body == Some(Job(Some(S(videoId)), Some(ownerUsername), Some(now)))
    ensures r.attributes.Keys == {"MessageType", "VideoId", "Source"}
    ensures r.attributes["VideoId"] == videoId
  {
    Message(messageId, messageId, Some(Job(Some(S(videoId)), Some(ownerUsername), Some(now))),
            map["MessageType" := "VideoProcessingJob", "VideoId" := videoId, "Source" := "S3TriggerLambda"])
  }

  // ---------------------------------------------------------------------------
  // `process_s3_record`

  /** An entry of the event's `Records`: its bucket and object key, or an entry
      without them. */
  datatype S3Record = S3Record(bucket: string, key: string) | MalformedRecord

  /** What the remote calls for one record do: the metadata answers, whether
      the "processing" write, the send and the revert fail, and the message id
      and clock reading of the send. */
  datatype RecordEnv = RecordEnv(answer: nat -> QueryAnswer, claimFails: bool, sendFails: bool, revertFails: bool,
                                 messageId: string, now: real)

  /** What handling one record leaves: its result (or the exception it raised),
      the table and the queue. */
  datatype TriggerRun = TriggerRun(result: Result<bool>, table: Table, messages: seq<Message>)

  /** `metadata.get('status', 'uploaded') in ['processing', 'completed']` */
  predicate AlreadyClaimed(metadata: Item)
  {
    Get(metadata, "status") == Some(S(StatusName(Processing))) || Get(metadata, "status") == Some(S(StatusName(Completed)))
  }

  /** `json.dumps` serialises a string, but not the `Decimal` a DynamoDB
      number reads back as from the table resource: on one it raises
      `TypeError`. */
  predicate JsonSerialisable(v: AttrValue)
  {
    v.S?
  }

  /** The looked-up metadata passes the checks of `process_s3_record`, so the
      "processing" write is attempted. */
  predicate Claimable(metadata: Option<Item>)
  {
    metadata.Some? && TruthyAt(metadata.value, "owner_username") && !AlreadyClaimed(metadata.value)
  }

  /** `process_s3_record` lets an exception out for `record`: the record lacks
      its bucket and key, or its metadata is claimed with an owner that
      `json.dumps` cannot serialise. */
  predicate RecordRaises(record: S3Record, unquotePlus: string -> string, env: RecordEnv)
  {
    record.MalformedRecord?
    || (S3Keys.ExtractVideoIdFromS3Key(record.key, unquotePlus).Some?
        && var m := MetadataLookup(env.answer, DefaultMaxRetries).0;
           Claimable(m) && !JsonSerialisable(m.value["owner_username"]))
  }

  /** The record `update_video_status` addresses. */
  function StatusKey(qutUsername: string, videoId: string, ownerUsername: AttrValue): TableKey
  {
    TableKey(qutUsername, SortKey(Render(ownerUsername), videoId))
  }

  /** `process_s3_record` as a function of the table and queue it starts from. */
  function RecordOutcome(table: Table, msgs: seq<Message>, qutUsername: string, record: S3Record,
                         unquotePlus: string -> string, env: RecordEnv): (r: TriggerRun)
    ensures r.result.Raised? <==> RecordRaises(record, unquotePlus, env)
    ensures r.result.Raised? ==> r.messages == msgs && (r.result.exc == KeyError || r.result.exc == TypeError)
    ensures record.MalformedRecord? ==> r == TriggerRun(Raised(KeyError), table, msgs)
  {
    if record.MalformedRecord? then TriggerRun(Raised(KeyError), table, msgs)
    else match S3Keys.ExtractVideoIdFromS3Key(record.key, unquotePlus)
      case None => TriggerRun(Ok(false), table, msgs)
      case Some(videoId) => ClaimFor(table, msgs, qutUsername, videoId, MetadataLookup(env.answer, DefaultMaxRetries).0, env)
  }

  /** The rest of `process_s3_record` once the key named `videoId` and the
      look-up returned `metadata`: the checks, the claim and the send. An
      owner `json.dumps` cannot serialise raises `TypeError` from the send,
      after the claim and before any revert. */
  function ClaimFor(table: Table, msgs: seq<Message>, qutUsername: string, videoId: string, metadata: Option<Item>,
                    env: RecordEnv): (r: TriggerRun)
    ensures r.result.Raised? <==> Claimable(metadata) && !JsonSerialisable(metadata.value["owner_username"])
    ensures r.result.Raised? ==> r.result == Raised(TypeError) && r.messages == msgs
    ensures r.messages == msgs
            || (r.result == Ok(true) && metadata.Some? && "owner_username" in metadata.value
                && |r.messages| == |msgs| + 1 && r.messages[..|msgs|] == msgs
                && r.messages[|msgs|] == JobMessage(videoId, metadata.value["owner_username"], env.messageId, env.now))
    ensures metadata.None? || !TruthyAt(metadata.value, "owner_username") ==> r == TriggerRun(Ok(false), table, msgs)
  {
    if metadata.None? || metadata.value == map[] || !TruthyAt(metadata.value, "owner_username") then
      TriggerRun(Ok(false), table, msgs)
    else if AlreadyClaimed(metadata.value) then TriggerRun(Ok(true), table, msgs)
    else
      var owner := metadata.value["owner_username"];
      var k := StatusKey(qutUsername, videoId, owner);
      var claimed := if env.claimFails then table else WithStatus(table, k, Processing);
      if !JsonSerialisable(owner) then TriggerRun(Raised(TypeError), claimed, msgs)
      else if env.sendFails then
        TriggerRun(Ok(false), if env.revertFails then claimed else WithStatus(claimed, k, Uploaded), msgs)
      else TriggerRun(Ok(true), claimed, msgs + [JobMessage(videoId, owner, env.messageId, env.now)])
  }

  lemma RecordOutcomeOf(table: Table, msgs: seq<Message>, qutUsername: string, record: S3Record,
                        unquotePlus: string -> string, env: RecordEnv, videoId: string)
    requires record.S3Record? && S3Keys.ExtractVideoIdFromS3Key(record.key, unquotePlus) == Some(videoId)
    ensures RecordOutcome(table, msgs, qutUsername, record, unquotePlus, env)
            == ClaimFor(table, msgs, qutUsername, videoId, MetadataLookup(env.answer, DefaultMaxRetries).0, env)
  {
  }

  /** A key that yields no video id: `False`, nothing written, nothing sent. */
  lemma NoVideoIdNoEffect(table: Table, msgs: seq<Message>, qutUsername: string, bucket: string, key: string,
                          unquotePlus: string -> string, env: RecordEnv)
    requires S3Keys.ExtractVideoIdFromS3Key(key, unquotePlus).None?
    ensures RecordOutcome(table, msgs, qutUsername, S3Record(bucket, key), unquotePlus, env) == TriggerRun(Ok(false), table, msgs)
  {
  }

  /** No record found, or one without a truthy owner: `False`, nothing written,
      nothing sent. */
  lemma UnownedNoEffect(table: Table, msgs: seq<Message>, qutUsername: string, record: S3Record,
                        unquotePlus: string -> string, env: RecordEnv)
    requires record.S3Record? && S3Keys.ExtractVideoIdFromS3Key(record.key, unquotePlus).Some?
    requires var m := MetadataLookup(env.answer, DefaultMaxRetries).0;
             m.None? || !TruthyAt(m.value, "owner_username")
    ensures RecordOutcome(table, msgs, qutUsername, record, unquotePlus, env) == TriggerRun(Ok(false), table, msgs)
  {
  }

  /** A record already "processing" or "completed" is skipped with `True`;
      nothing is written or sent. */
  lemma ClaimedIsSkipped(table: Table, msgs: seq<Message>, qutUsername: string, record: S3Record,
                         unquotePlus: string -> string, env: RecordEnv)
    requires record.S3Record? && S3Keys.ExtractVideoIdFromS3Key(record.key, unquotePlus).Some?
    requires var m := MetadataLookup(env.answer, DefaultMaxRetries).0;
             m.Some? && TruthyAt(m.value, "owner_username") && AlreadyClaimed(m.value)
    ensures RecordOutcome(table, msgs, qutUsername, record, unquotePlus, env) == TriggerRun(Ok(true), table, msgs)
  {
    RecordOutcomeOf(table, msgs, qutUsername, record, unquotePlus, env,
                    S3Keys.ExtractVideoIdFromS3Key(record.key, unquotePlus).value);
  }

  /** The outcomes of a record that passes the checks: the send is attempted
      whether or not the claim was written; a sent job is the only message
      added; a failed send sends nothing and, unless the revert fails, leaves
      the status "uploaded" whatever it was before. A numeric owner raises
      `TypeError` from the send with nothing sent and no revert, so a
      successful claim leaves the record "processing". */
  lemma {:induction false} ClaimOutcomes(table: Table, msgs: seq<Message>, qutUsername: string, record: S3Record,
                                         unquotePlus: string -> string, env: RecordEnv)
    requires record.S3Record? && S3Keys.ExtractVideoIdFromS3Key(record.key, unquotePlus).Some?
    requires var m := MetadataLookup(env.answer, DefaultMaxRetries).0;
             m.Some? && TruthyAt(m.value, "owner_username") && !AlreadyClaimed(m.value)
    ensures var run := RecordOutcome(table, msgs, qutUsername, record, unquotePlus, env);
            var videoId := S3Keys.ExtractVideoIdFromS3Key(record.key, unquotePlus).value;
            var owner := MetadataLookup(env.answer, DefaultMaxRetries).0.value["owner_username"];
            var k := StatusKey(qutUsername, videoId, owner);
            (JsonSerialisable(owner) ==>
               (run.result == Ok(true) <==> !env.sendFails)
               && (!env.sendFails ==> run.messages == msgs + [JobMessage(videoId, owner, env.messageId, env.now)])
               && (env.sendFails ==> run.result == Ok(false) && run.messages == msgs)
               && (!env.sendFails && !env.claimFails ==> run.table == WithStatus(table, k, Processing))
               && (env.sendFails && !env.revertFails ==> k in run.table && Get(run.table[k], "status") == Some(S("uploaded"))))
            && (!JsonSerialisable(owner) ==>
                  run.result == Raised(TypeError) && run.messages == msgs
                  && run.table == if env.claimFails then table else WithStatus(table, k, Processing))
            && (forall k2 :: k2 != k ==> Lookup(run.table, k2) == Lookup(table, k2))
  {
    var videoId := S3Keys.ExtractVideoIdFromS3Key(record.key, unquotePlus).value;
    RecordOutcomeOf(table, msgs, qutUsername, record, unquotePlus, env, videoId);
    ClaimForOutcomes(table, msgs, qutUsername, videoId, MetadataLookup(env.answer, DefaultMaxRetries).0.value, env);
  }

  lemma ClaimForOutcomes(table: Table, msgs: seq<Message>, qutUsername: string, videoId: string, metadata: Item,
                         env: RecordEnv)
    requires TruthyAt(metadata, "owner_username") && !AlreadyClaimed(metadata)
    ensures var run := ClaimFor(table, msgs, qutUsername, videoId, Some(metadata), env);
            var owner := metadata["owner_username"];
            var k := StatusKey(qutUsername, videoId, owner);
            (JsonSerialisable(owner) ==>
               (run.result == Ok(true) <==> !env.sendFails)
               && (!env.sendFails ==> run.messages == msgs + [JobMessage(videoId, owner, env.messageId, env.now)])
               && (env.sendFails ==> run.result == Ok(false) && run.messages == msgs)
               && (!env.sendFails && !env.claimFails ==> run.table == WithStatus(table, k, Processing))
               && (env.sendFails && !env.revertFails ==> k in run.table && Get(run.table[k], "status") == Some(S("uploaded"))))
            && (!JsonSerialisable(owner) ==>
                  run.result == Raised(TypeError) && run.messages == msgs
                  && run.table == if env.claimFails then table else WithStatus(table, k, Processing))
            && (forall k2 :: k2 != k ==> Lookup(run.table, k2) == Lookup(table, k2))
  {
    assert metadata != map[];
  }

  /** Once a trigger has written "processing", a repeated event for the same
      upload whose lookup reads the stored record back is skipped: no second
      job, and none at all for a numeric owner. (The first lookup is taken to
      have read the table's own record.) */
  lemma RepeatEventIsSkipped(table: Table, msgs: seq<Message>, qutUsername: string, record: S3Record,
                             unquotePlus: string -> string, env: RecordEnv, env2: RecordEnv)
    requires record.S3Record? && S3Keys.ExtractVideoIdFromS3Key(record.key, unquotePlus).Some?
    requires var m := MetadataLookup(env.answer, DefaultMaxRetries).0;
             m.Some? && TruthyAt(m.value, "owner_username") && !AlreadyClaimed(m.value)
    requires !env.claimFails && !env.sendFails
    requires var videoId := S3Keys.ExtractVideoIdFromS3Key(record.key, unquotePlus).value;
             var m := MetadataLookup(env.answer, DefaultMaxRetries).0.value;
             var k := StatusKey(qutUsername, videoId, m["owner_username"]);
             k in table && m == table[k]
             && env2.answer(0) == Items([RecordOutcome(table, msgs, qutUsername, record, unquotePlus, env).table[k]])
    ensures var run := RecordOutcome(table, msgs, qutUsername, record, unquotePlus, env);
            var again := RecordOutcome(run.table, run.messages, qutUsername, record, unquotePlus, env2);
            var owner := MetadataLookup(env.answer, DefaultMaxRetries).0.value["owner_username"];
            (JsonSerialisable(owner) ==> |run.messages| == |msgs| + 1)
            && (!JsonSerialisable(owner) ==> run.messages == msgs)
            && again == TriggerRun(Ok(true), run.table, run.messages)
  {
    var run := RecordOutcome(table, msgs, qutUsername, record, unquotePlus, env);
    var videoId := S3Keys.ExtractVideoIdFromS3Key(record.key, unquotePlus).value;
    var m := MetadataLookup(env.answer, DefaultMaxRetries).0.value;
    var k := StatusKey(qutUsername, videoId, m["owner_username"]);
    ClaimOutcomes(table, msgs, qutUsername, record, unquotePlus, env);
    assert run.table == WithStatus(table, k, Processing);
    var stored := run.table[k];
    assert Get(stored, "owner_username") == Get(table[k], "owner_username");
    assert TruthyAt(stored, "owner_username");
    assert AlreadyClaimed(stored);
    assert MetadataLookup(env2.answer, DefaultMaxRetries) == (Some(stored), 1);
    ClaimedIsSkipped(run.table, run.messages, qutUsername, record, unquotePlus, env2);
  }

  /** When the claim write fails but the send succeeds, the record keeps its
      status, so a repeated event that reads it back enqueues a second job for
      the same video (for a numeric owner, both events raise `TypeError`
      instead and no job is sent). */
  lemma FailedClaimAllowsSecondJob(table: Table, msgs: seq<Message>, qutUsername: string, record: S3Record,
                                   unquotePlus: string -> string, env: RecordEnv, env2: RecordEnv)
    requires record.S3Record? && S3Keys.ExtractVideoIdFromS3Key(record.key, unquotePlus).Some?
    requires var m := MetadataLookup(env.answer, DefaultMaxRetries).0;
             m.Some? && TruthyAt(m.value, "owner_username") && !AlreadyClaimed(m.value)
    requires env.claimFails && !env.sendFails && !env2.sendFails
    requires env2.answer(0) == env.answer(0) && Hit(env.answer(0))
    ensures var run := RecordOutcome(table, msgs, qutUsername, record, unquotePlus, env);
            var again := RecordOutcome(run.table, run.messages, qutUsername, record, unquotePlus, env2);
            var videoId := S3Keys.ExtractVideoIdFromS3Key(record.key, unquotePlus).value;
            var owner := MetadataLookup(env.answer, DefaultMaxRetries).0.value["owner_username"];
            (JsonSerialisable(owner) ==>
               again.result == Ok(true)
               && again.messages == msgs + [JobMessage(videoId, owner, env.messageId, env.now),
                                            JobMessage(videoId, owner, env2.messageId, env2.now)])
            && (!JsonSerialisable(owner) ==> again.result == Raised(TypeError) && again.messages == msgs)
  {
    var videoId := S3Keys.ExtractVideoIdFromS3Key(record.key, unquotePlus).value;
    assert LookupFrom(env.answer, DefaultMaxRetries, 0) == (Some(env.answer(0).items[0]), 1);
    assert LookupFrom(env2.answer, DefaultMaxRetries, 0) == (Some(env.answer(0).items[0]), 1);
    var metadata := MetadataLookup(env.answer, DefaultMaxRetries).0.value;
    RecordOutcomeOf(table, msgs, qutUsername, record, unquotePlus, env, videoId);
    ClaimForOutcomes(table, msgs, qutUsername, videoId, metadata, env);
    var run := RecordOutcome(table, msgs, qutUsername, record, unquotePlus, env);
    RecordOutcomeOf(run.table, run.messages, qutUsername, record, unquotePlus, env2, videoId);
    ClaimForOutcomes(run.table, run.messages, qutUsername, videoId, metadata, env2);
  }

  // ---------------------------------------------------------------------------
  // `lambda_handler`

  /** The handler's response code and the state it leaves. */
  datatype HandlerRun = HandlerRun(statusCode: int, table: Table, messages: seq<Message>)

  /** The record loop from record `i` on: records are handled in order, their
      results are ignored, and the first exception ends the loop with 500. */
  function RecordsFrom(table: Table, msgs: seq<Message>, qutUsername: string, records: seq<S3Record>,
                       unquotePlus: string -> string, env: nat -> RecordEnv, i: nat): (r: HandlerRun)
    ensures r.statusCode == 200 || r.statusCode == 500
    decreases |records| - i
  {
    if i >= |records| then HandlerRun(200, table, msgs)
    else
      var run := RecordOutcome(table, msgs, qutUsername, records[i], unquotePlus, env(i));
      if run.result.Raised? then HandlerRun(500, run.table, run.messages)
      else RecordsFrom(run.table, run.messages, qutUsername, records, unquotePlus, env, i + 1)
  }

  /** `lambda_handler`: a failing `get_config` answers 500 before any record. */
  function HandlerOutcome(table: Table, msgs: seq<Message>, qutUsername: string, configOk: bool, records: seq<S3Record>,
                          unquotePlus: string -> string, env: nat -> RecordEnv): (r: HandlerRun)
    ensures r.statusCode == 200 || r.statusCode == 500
    ensures r.statusCode == 500 <==> !configOk || exists j :: 0 <= j < |records| && RecordRaises(records[j], unquotePlus, env(j))
    ensures !configOk ==> r == HandlerRun(500, table, msgs)
  {
    StatusCodeOfRecords(table, msgs, qutUsername, records, unquotePlus, env, 0);
    if !configOk then HandlerRun(500, table, msgs)
    else RecordsFrom(table, msgs, qutUsername, records, unquotePlus, env, 0)
  }

  /** The response is 500 exactly when some record from `i` on raises (it is
      malformed, or its claimed owner is numeric); per-record `False` results
      do not change it. */
  lemma {:induction false} StatusCodeOfRecords(table: Table, msgs: seq<Message>, qutUsername: string, records: seq<S3Record>,
                                               unquotePlus: string -> string, env: nat -> RecordEnv, i: nat)
    ensures RecordsFrom(table, msgs, qutUsername, records, unquotePlus, env, i).statusCode == 500
            <==> exists j :: i <= j < |records| && RecordRaises(records[j], unquotePlus, env(j))
    decreases |records| - i
  {
    if i < |records| {
      var run := RecordOutcome(table, msgs, qutUsername, records[i], unquotePlus, env(i));
      assert RecordsFrom(table, msgs, qutUsername, records, unquotePlus, env, i)
             == if run.result.Raised? then HandlerRun(500, run.table, run.messages)
                else RecordsFrom(run.table, run.messages, qutUsername, records, unquotePlus, env, i + 1);
      if run.result.Ok? {
        StatusCodeOfRecords(run.table, run.messages, qutUsername, records, unquotePlus, env, i + 1);
        RaisesPastHead(records, unquotePlus, env, i);
      }
    }
  }

  /** When record `i` does not raise, some record from `i` on raises exactly
      when some record from `i + 1` on does. */
  lemma RaisesPastHead(records: seq<S3Record>, unquotePlus: string -> string, env: nat -> RecordEnv, i: nat)
    requires i < |records| && !RecordRaises(records[i], unquotePlus, env(i))
    ensures (exists j :: i <= j < |records| && RecordRaises(records[j], unquotePlus, env(j)))
            <==> exists j :: i + 1 <= j < |records| && RecordRaises(records[j], unquotePlus, env(j))
  {
    if exists j :: i <= j < |records| && RecordRaises(records[j], unquotePlus, env(j)) {
      var j :| i <= j < |records| && RecordRaises(records[j], unquotePlus, env(j));
      assert j != i;
    }
  }

  /** A record that raises ends the loop: the records after it have no effect. */
  lemma {:induction false} RaisingRecordStopsLoop(table: Table, msgs: seq<Message>, qutUsername: string,
                                                    records: seq<S3Record>, unquotePlus: string -> string,
                                                    env: nat -> RecordEnv, i: nat, j: nat)
    requires i <= j < |records| && RecordRaises(records[j], unquotePlus, env(j))
    ensures var all := RecordsFrom(table, msgs, qutUsername, records, unquotePlus, env, i);
            var upTo := RecordsFrom(table, msgs, qutUsername, records[..j + 1], unquotePlus, env, i);
            all == upTo
    decreases j - i
  {
    var run := RecordOutcome(table, msgs, qutUsername, records[i], unquotePlus, env(i));
    assert records[..j + 1][i] == records[i];
    if i < j && run.result.Ok? {
      RaisingRecordStopsLoop(run.table, run.messages, qutUsername, records, unquotePlus, env, i + 1, j);
    }
  }

  // ---------------------------------------------------------------------------
  // The Lambda

  /** The Lambda's configuration: the table (with `QUT_USERNAME`) and the queue. */
  class TriggerLambda {
    const ddb: DynamoDbClient
    const queue: MessageQueue
    /** `urllib.parse.unquote_plus` */
    const unquotePlus: string -> string

    constructor(ddb: DynamoDbClient, queue: MessageQueue, unquotePlus: string -> string)
      ensures this.ddb == ddb && this.queue == queue && this.unquotePlus == unquotePlus
    {
      this.ddb := ddb;
      this.queue := queue;
      this.unquotePlus := unquotePlus;
    }

    /** `update_video_status`: sets only `status`; `False` on a `ClientError`. */
    method UpdateVideoStatus(videoId: string, ownerUsername: AttrValue, st: Status, fails: bool) returns (r: bool)
      modifies ddb
      ensures r == !fails
      ensures ddb.table == if fails then old(ddb.table)
                           else WithStatus(old(ddb.table), StatusKey(ddb.qutUsername, videoId, ownerUsername), st)
    {
      WithStatusIsUpdate(ddb.table, StatusKey(ddb.qutUsername, videoId, ownerUsername), st);
      var updated := ddb.UpdateVideo(videoId, Render(ownerUsername), RequestFor(StatusFields(st)), fails);
      r := updated.Ok?;
    }

    /** `send_message_to_sqs`: `json.dumps` of the body raises `TypeError`
        on a numeric owner before anything is sent, and only a `ClientError`
        of the send is caught. */
    method SendMessageToSqs(videoId: string, ownerUsername: AttrValue, messageId: string, now: real, fails: bool)
      returns (r: Result<bool>)
      modifies queue
      ensures r == if !JsonSerialisable(ownerUsername) then Raised(TypeError) else Ok(!fails)
      ensures queue.messages == if !JsonSerialisable(ownerUsername) || fails then old(queue.messages)
                                else old(queue.messages) + [JobMessage(videoId, ownerUsername, messageId, now)]
    {
      if !JsonSerialisable(ownerUsername) {
        return Raised(TypeError);
      }
      var sent := queue.Send(JobMessage(videoId, ownerUsername, messageId, now), fails);
      r := Ok(sent);
    }

    /** `process_s3_record` */
    method ProcessS3Record(record: S3Record, env: RecordEnv) returns (r: Result<bool>)
      modifies ddb, queue
      ensures var run := RecordOutcome(old(ddb.table), old(queue.messages), ddb.qutUsername, record, unquotePlus, env);
              r == run.result && ddb.table == run.table && queue.messages == run.messages
    {
      if record.MalformedRecord? {
        return Raised(KeyError);
      }
      var videoId := S3Keys.ExtractVideoIdFromS3Key(record.key, unquotePlus);
      if videoId.None? {
        return Ok(false);
      }
      RecordOutcomeOf(ddb.table, queue.messages, ddb.qutUsername, record, unquotePlus, env, videoId.value);
      var metadata, _, _ := GetVideoMetadata(env.answer, DefaultMaxRetries, DefaultRetryDelay);
      if metadata.None? || metadata.value == map[] {
        return Ok(false);
      }
      if !TruthyAt(metadata.value, "owner_username") {
        return Ok(false);
      }
      if AlreadyClaimed(metadata.value) {
        return Ok(true);
      }
      var owner := metadata.value["owner_username"];
      var _ := UpdateVideoStatus(videoId.value, owner, Processing, env.claimFails);
      var sent := SendMessageToSqs(videoId.value, owner, env.messageId, env.now, env.sendFails);
      if sent.Raised? {
        return Raised(sent.exc);
      }
      if !sent.value {
        var _ := UpdateVideoStatus(videoId.value, owner, Uploaded, env.revertFails);
        return Ok(false);
      }
      r := Ok(true);
    }

    /** `lambda_handler`: `env(i)` is what the remote calls do for record `i`. */
    method LambdaHandler(configOk: bool, records: seq<S3Record>, env: nat -> RecordEnv) returns (statusCode: int)
      modifies ddb, queue
      ensures var run := HandlerOutcome(old(ddb.table), old(queue.messages), ddb.qutUsername, configOk, records, unquotePlus, env);
              statusCode == run.statusCode && ddb.table == run.table && queue.messages == run.messages
    {
      if !configOk {
        return 500;
      }
      var i := 0;
      while i < |records|
        invariant 0 <= i <= |records|
        invariant RecordsFrom(old(ddb.table), old(queue.messages), ddb.qutUsername, records, unquotePlus, env, 0)
                  == RecordsFrom(ddb.table, queue.messages, ddb.qutUsername, records, unquotePlus, env, i)
        decreases |records| - i
      {
        var r := ProcessS3Record(records[i], env(i));
        if r.Raised? {
          return 500;
        }
        i := i + 1;
      }
      statusCode := 200;
    }
  }
}

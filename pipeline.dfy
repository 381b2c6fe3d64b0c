// How the trigger, the worker and the dead-letter monitor fit together: the
// job the trigger sends is one the handlers accept, all three address the
// same record, and the ends a video can reach.

module Pipeline {
  import opened Common
  import opened Store
  import opened Queue
  import opened MessageHandler
  import opened Blobs
  import opened TextCompressor
  import opened Summary
  import opened VideoService
  import opened S3Trigger
  import opened Worker
  import opened Dlq

  /** The key both job handlers derive from a message's identifiers. */
  function JobKey(qutUsername: string, job: JobData): TableKey
    requires IsValidJobData(job)
  {
    TableKey(qutUsername, SortKey(Render(job.ownerUsername.value), Render(job.videoId.value)))
  }

  /** The job the trigger sends is accepted by the handlers with the same
      identifiers, and they address the record the trigger claimed. */
  lemma TriggerJobIsAccepted(qutUsername: string, videoId: string, ownerUsername: AttrValue, messageId: string, now: real)
    requires videoId != "" && Truthy(ownerUsername)
    ensures var m := JobMessage(videoId, ownerUsername, messageId, now);
            Accepted(m) == Ok(Some(JobData(Some(S(videoId)), Some(ownerUsername), Some(messageId), Some(messageId))))
            && JobKey(qutUsername, Accepted(m).value.value) == StatusKey(qutUsername, videoId, ownerUsername)
  {
  }

  /** Every video id the key parser yields is non-empty, so every job the
      trigger sends passes validation. */
  lemma SentJobsAreValid(table: Table, msgs: seq<Message>, qutUsername: string, record: S3Record,
                         unquotePlus: string -> string, env: RecordEnv)
    ensures var run := RecordOutcome(table, msgs, qutUsername, record, unquotePlus, env);
            |run.messages| <= |msgs| + 1
            && (|run.messages| == |msgs| + 1 ==>
                  run.messages[..|msgs|] == msgs && Accepted(run.messages[|msgs|]).Ok?
                  && Accepted(run.messages[|msgs|]).value.Some?)
  {
    var run := RecordOutcome(table, msgs, qutUsername, record, unquotePlus, env);
    if |run.messages| == |msgs| + 1 {
      var videoId := S3Keys.ExtractVideoIdFromS3Key(record.key, unquotePlus).value;
      var owner := MetadataLookup(env.answer, DefaultMaxRetries).0.value["owner_username"];
      assert |videoId| == 36;
      assert run.messages == msgs + [JobMessage(videoId, owner, env.messageId, env.now)];
      TriggerJobIsAccepted(qutUsername, videoId, owner, env.messageId, env.now);
    }
  }

  /** A job the trigger claimed whose download then fails is deleted with its
      record left in "processing" for good: nothing later rewrites it. When
      one of the two reads before the download is refused instead, the job
      is kept for redelivery, again with nothing written. */
  lemma FailedDownloadStrandsProcessing(table: Table, qutUsername: string, videoId: string, ownerUsername: string,
                                        messageId: string, now: real, msgs: seq<Message>, deleteFails: bool,
                                        faults: TableFaults, unreachable: set<string>, objects: map<string, Blob>,
                                        t: Transcription, rank: Ranker, llm: Llm, stamp: string)
    requires videoId != "" && ownerUsername != ""
    requires var k := StatusKey(qutUsername, videoId, S(ownerUsername));
             k in table && Get(table[k], "status") == Some(S("processing"))
             && Owns(Some(table[k]), ownerUsername) && TruthyAt(table[k], "s3_key") && "filename" in table[k]
             && Download(unreachable, objects, table[k]).Raised?
    ensures var m := JobMessage(videoId, S(ownerUsername), messageId, now);
            var r := MessageOutcome(msgs, m, deleteFails, table, qutUsername, faults, unreachable, objects, t, rank, llm, stamp);
            r.run.Some? && r.run.value.statuses == [] && r.run.value.table == table
            && (!faults.read && !faults.ownershipRead ==> r.result == Ok(false) && r.messages == Deleted(msgs, m, deleteFails))
            && (faults.read || faults.ownershipRead ==> r.result == Ok(false) && r.messages == msgs)
  {
    var m := JobMessage(videoId, S(ownerUsername), messageId, now);
    TriggerJobIsAccepted(qutUsername, videoId, S(ownerUsername), messageId, now);
    var k := StatusKey(qutUsername, videoId, S(ownerUsername));
    var e := Refusal(Lookup(table, k), ownerUsername, faults, unreachable, objects);
    assert e.Some?;
    var run := ProcessOutcome(table, k, videoId, ownerUsername, faults, unreachable, objects, t, rank, llm, stamp);
    assert run == ProcessRun(Raised(e.value), [], objects, table);
    if !faults.read && !faults.ownershipRead {
      assert run.result.Raised? && run.result.exc.ValueError?;
      RefusedJobIsDeletedLeavingStatus(msgs, m, deleteFails, table, qutUsername, faults, unreachable, objects, t, rank, llm, stamp);
    } else {
      assert run.result == Raised(Unavailable);
    }
  }

  /** A job whose pipeline failed after "processing" stays on the queue,
      with its record in "error", or still in "processing" when a table
      write was refused; once the queue has moved it to the dead-letter
      queue, the monitor marks that same record "failed" and removes the
      message. */
  lemma ErrorThenDeadLetterEndsFailed(msgs: seq<Message>, m: Message, deleteFails: bool, table: Table, qutUsername: string,
                                      faults: TableFaults, unreachable: set<string>, objects: map<string, Blob>,
                                      t: Transcription, rank: Ranker, llm: Llm, now: string, dlqMsgs: seq<Message>)
    requires var r := MessageOutcome(msgs, m, deleteFails, table, qutUsername, faults, unreachable, objects, t, rank, llm, now);
             r.run.Some? && (r.run.value.statuses == [Processing, Error] || r.run.value.statuses == [Processing])
    ensures var r := MessageOutcome(msgs, m, deleteFails, table, qutUsername, faults, unreachable, objects, t, rank, llm, now);
            var k := JobKey(qutUsername, Accepted(m).value.value);
            var d := DlqOutcome(r.run.value.table, dlqMsgs, qutUsername, m, false, false);
            r.messages == msgs && k in r.run.value.table
            && Get(r.run.value.table[k], "status") == Some(S(if r.run.value.statuses == [Processing] then "processing" else "error"))
            && d.result == Ok(true) && d.messages == WithoutHandle(dlqMsgs, m.receiptHandle)
            && k in d.table && Get(d.table[k], "status") == Some(S("failed"))
            && (forall a :: a != "status" ==> Get(d.table[k], a) == Get(r.run.value.table[k], a))
  {
    var r := MessageOutcome(msgs, m, deleteFails, table, qutUsername, faults, unreachable, objects, t, rank, llm, now);
    if r.run.value.statuses == [Processing] {
      RefusedWriteKeepsJobInProcessing(msgs, m, deleteFails, table, qutUsername, faults, unreachable, objects, t, rank, llm, now);
    } else {
      FailedJobIsKeptInError(msgs, m, deleteFails, table, qutUsername, faults, unreachable, objects, t, rank, llm, now);
    }
    DlqPolicy(r.run.value.table, dlqMsgs, qutUsername, m, false, false);
  }

  /** When Whisper fails, a claimed job that gets past the checks ends in
      "error" (or in "processing" when that write is refused) and is kept, so
      only the dead-letter monitor ends it. */
  lemma DemoTranscriptIsKept(msgs: seq<Message>, m: Message, deleteFails: bool, table: Table, qutUsername: string,
                             faults: TableFaults, unreachable: set<string>, objects: map<string, Blob>,
                             rank: Ranker, llm: Llm, now: string)
    requires var r := MessageOutcome(msgs, m, deleteFails, table, qutUsername, faults, unreachable, objects,
                                     PlainText(DemoTranscript), rank, llm, now);
             r.run.Some? && r.run.value.statuses != []
    ensures var r := MessageOutcome(msgs, m, deleteFails, table, qutUsername, faults, unreachable, objects,
                                    PlainText(DemoTranscript), rank, llm, now);
            r.result == Ok(false) && r.messages == msgs
            && r.run.value.statuses == (if faults.error then [Processing] else [Processing, Error])
  {
    var job := Accepted(m).value.value;
    var videoId := Render(job.videoId.value);
    var owner := Render(job.ownerUsername.value);
    var k := TableKey(qutUsername, SortKey(owner, videoId));
    DemoTranscriptEndsInError(table, k, videoId, owner, faults, unreachable, objects, rank, llm, now);
    if faults.error {
      RefusedWriteKeepsJobInProcessing(msgs, m, deleteFails, table, qutUsername, faults, unreachable, objects,
                                       PlainText(DemoTranscript), rank, llm, now);
    } else {
      FailedJobIsKeptInError(msgs, m, deleteFails, table, qutUsername, faults, unreachable, objects,
                             PlainText(DemoTranscript), rank, llm, now);
    }
  }
}

// The dead-letter monitor: a job that reached the dead-letter queue is marked
// "failed" and then removed from it; an invalid one is just removed. Nothing
// is sent back to the processing queue.

module Dlq {
  import opened Common
  import opened UpdateExpression
  import opened Store
  import opened Queue
  import opened MessageHandler
  import opened VideoRepository

  /** What handling one dead-letter message leaves. */
  datatype DlqRun = DlqRun(result: Result<bool>, table: Table, messages: seq<Message>)

  /** `_process_dlq_message` as a function of the table and the dead-letter
      queue it starts from. */
  function DlqOutcome(table: Table, msgs: seq<Message>, qutUsername: string, m: Message,
                      markFails: bool, deleteFails: bool): (r: DlqRun)
    ensures r.messages == msgs || r.messages == Deleted(msgs, m, deleteFails)
  {
    match Accepted(m)
    case Raised(e) => DlqRun(Raised(e), table, msgs)
    case Ok(job) =>
      if job.None? then DlqRun(Ok(false), table, Deleted(msgs, m, deleteFails))
      else if markFails then DlqRun(Ok(false), table, msgs)
      else
        var k := TableKey(qutUsername, SortKey(Render(job.value.ownerUsername.value), Render(job.value.videoId.value)));
        DlqRun(Ok(true), WithStatus(table, k, Failed), Deleted(msgs, m, deleteFails))
  }

  /** The monitor's policy: an invalid message is removed with no write; a
      valid one is removed only after the record is marked "failed" (never
      the worker's "error"), and stays when the mark fails; the only record
      touched is the job's. */
  lemma {:induction false} DlqPolicy(table: Table, msgs: seq<Message>, qutUsername: string, m: Message,
                                     markFails: bool, deleteFails: bool)
    ensures var r := DlqOutcome(table, msgs, qutUsername, m, markFails, deleteFails);
            (Accepted(m) == Ok(None) ==> r == DlqRun(Ok(false), table, Deleted(msgs, m, deleteFails)))
            && (r.result.Raised? ==> r.table == table && r.messages == msgs)
            && (r.table != table || r.result == Ok(true) ==> Accepted(m).Ok? && Accepted(m).value.Some? && !markFails)
            && (Accepted(m).Ok? && Accepted(m).value.Some? ==>
                  var job := Accepted(m).value.value;
                  var k := TableKey(qutUsername, SortKey(Render(job.ownerUsername.value), Render(job.videoId.value)));
                  (markFails ==> r == DlqRun(Ok(false), table, msgs))
                  && (!markFails ==>
                        r.result == Ok(true) && r.messages == Deleted(msgs, m, deleteFails)
                        && Get(r.table[k], "status") == Some(S("failed")) && Get(r.table[k], "status") != Some(S("error"))
                        && (forall a :: a != "status" ==> Get(r.table[k], a) == Get(if k in table then table[k] else KeyItem(k), a))
                        && (forall k2 :: k2 != k ==> Lookup(r.table, k2) == Lookup(table, k2))))
  {
    if Accepted(m).Ok? && Accepted(m).value.Some? && !markFails {
      var job := Accepted(m).value.value;
      var k := TableKey(qutUsername, SortKey(Render(job.ownerUsername.value), Render(job.videoId.value)));
      assert DlqOutcome(table, msgs, qutUsername, m, markFails, deleteFails)
             == DlqRun(Ok(true), WithStatus(table, k, Failed), Deleted(msgs, m, deleteFails));
      MarkedFailed(table, k);
    }
  }

  /** The record a mark leaves. */
  lemma MarkedFailed(table: Table, k: TableKey)
    ensures Get(WithStatus(table, k, Failed)[k], "status") == Some(S("failed")) != Some(S("error"))
    ensures k !in table ==> WithStatus(table, k, Failed) == table[k := KeyItem(k)["status" := S("failed")]]
  {
    assert StatusName(Failed) == "failed";
    assert "failed"[0] != "error"[0];
  }

  /** Marking a job whose record was deleted meanwhile creates a record
      holding only its key and the status "failed". */
  lemma MarkCreatesStub(table: Table, msgs: seq<Message>, qutUsername: string, m: Message, deleteFails: bool)
    requires Accepted(m).Ok? && Accepted(m).value.Some?
    requires var job := Accepted(m).value.value;
             TableKey(qutUsername, SortKey(Render(job.ownerUsername.value), Render(job.videoId.value))) !in table
    ensures var job := Accepted(m).value.value;
            var k := TableKey(qutUsername, SortKey(Render(job.ownerUsername.value), Render(job.videoId.value)));
            var r := DlqOutcome(table, msgs, qutUsername, m, false, deleteFails);
            r.table == table[k := KeyItem(k)["status" := S("failed")]]
  {
    var job := Accepted(m).value.value;
    var k := TableKey(qutUsername, SortKey(Render(job.ownerUsername.value), Render(job.videoId.value)));
    assert DlqOutcome(table, msgs, qutUsername, m, false, deleteFails).table == WithStatus(table, k, Failed);
    MarkedFailed(table, k);
  }

  /** `DLQJobProcessor`: the record is written through the service's
      repository. */
  class DlqJobProcessor {
    const repo: VideoRepository

    constructor(repo: VideoRepository)
      ensures this.repo == repo
    {
      this.repo := repo;
    }

    /** `mark_video_as_failed`: `update_fields` of the status alone; a failing
        call is re-raised. The cache is left as it is. */
    method MarkVideoAsFailed(videoId: string, ownerUsername: string, fails: bool) returns (r: Result<()>)
      modifies repo.ddb
      ensures r.Ok? <==> !fails
      ensures fails ==> r == Raised(Unavailable) && repo.ddb.table == old(repo.ddb.table)
      ensures !fails ==> repo.ddb.table == WithStatus(old(repo.ddb.table), repo.ddb.KeyFor(videoId, ownerUsername), Failed)
    {
      WithStatusIsUpdate(repo.ddb.table, repo.ddb.KeyFor(videoId, ownerUsername), Failed);
      var updated := repo.UpdateFields(videoId, StatusFields(Failed), ownerUsername, fails);
      if updated.Raised? {
        return Raised(updated.exc);
      }
      r := Ok(());
    }
  }

  /** `DLQMonitor`, holding both queues as its SQS client does. */
  class DlqMonitor {
    const processor: DlqJobProcessor
    const mainQueue: MessageQueue
    const dlq: MessageQueue

    constructor(processor: DlqJobProcessor, mainQueue: MessageQueue, dlq: MessageQueue)
      ensures this.processor == processor && this.mainQueue == mainQueue && this.dlq == dlq
    {
      this.processor := processor;
      this.mainQueue := mainQueue;
      this.dlq := dlq;
    }

    /** `_process_dlq_message` */
    method ProcessDlqMessage(m: Message, markFails: bool, deleteFails: bool) returns (r: Result<bool>)
      requires mainQueue != dlq
      modifies processor.repo.ddb, dlq
      ensures var run := DlqOutcome(old(processor.repo.ddb.table), old(dlq.messages), processor.repo.ddb.qutUsername,
                                    m, markFails, deleteFails);
              r == run.result && processor.repo.ddb.table == run.table && dlq.messages == run.messages
      ensures mainQueue.messages == old(mainQueue.messages)
    {
      var parsed := ParseMessage(m);
      if parsed.Raised? {
        return Raised(parsed.exc);
      }
      if parsed.value.None? || !IsValidJobData(parsed.value.value) {
        var _ := dlq.Delete(m, deleteFails);
        return Ok(false);
      }
      var job := parsed.value.value;
      var marked := processor.MarkVideoAsFailed(Render(job.videoId.value), Render(job.ownerUsername.value), markFails);
      if marked.Raised? {
        return Ok(false);
      }
      var _ := dlq.Delete(m, deleteFails);
      r := Ok(true);
    }
  }
}

// The video processing worker: each received job runs `process_video`; the
// message is deleted when the job succeeds or is refused with a `ValueError`,
// and is kept for redelivery when anything else is raised.

module Worker {
  import opened Common
  import opened Store
  import opened Queue
  import opened MessageHandler
  import opened Blobs
  import opened TextCompressor
  import opened Summary
  import opened VideoService

  /** `process_single_job` on what `process_video` returned or raised (passed
      through `process_with_timeout_management` unchanged): `True` on a
      return, `False` on a `ValueError`, and any other exception re-raised. */
  function JobOutcome(processed: Result<string>): (r: Result<bool>)
    ensures r == Ok(true) <==> processed.Ok?
    ensures r == Ok(false) <==> processed.Raised? && processed.exc.ValueError?
    ensures r.Raised? ==> processed == Raised(r.exc) && !r.exc.ValueError?
  {
    match processed
    case Ok(_) => Ok(true)
    case Raised(e) => if e.ValueError? then Ok(false) else Raised(e)
  }

  /** What handling one message leaves: the result of `_process_message` (or
      what escaped it), the queue, and the run of `process_video` if one was
      made. */
  datatype MessageRun = MessageRun(result: Result<bool>, messages: seq<Message>, run: Option<ProcessRun>)

  /** `_process_message` as a function of the queue and the service state it
      starts from; `qutUsername` completes the record's key. */
  function MessageOutcome(msgs: seq<Message>, m: Message, deleteFails: bool, table: Table, qutUsername: string,
                          faults: TableFaults, unreachable: set<string>, objects: map<string, Blob>,
                          t: Transcription, rank: Ranker, llm: Llm, now: string): (r: MessageRun)
    ensures r.messages == msgs || r.messages == Deleted(msgs, m, deleteFails)
    ensures forall x :: x in r.messages ==> x in msgs
    ensures r.run.Some? ==> Accepted(m).Ok? && Accepted(m).value.Some?
  {
    match Accepted(m)
    case Raised(e) => MessageRun(Raised(e), msgs, None)
    case Ok(job) =>
      if job.None? then MessageRun(Ok(false), Deleted(msgs, m, deleteFails), None)
      else
        var videoId := Render(job.value.videoId.value);
        var owner := Render(job.value.ownerUsername.value);
        var run := ProcessOutcome(table, TableKey(qutUsername, SortKey(owner, videoId)), videoId, owner,
                                  faults, unreachable, objects, t, rank, llm, now);
        match JobOutcome(run.result)
        case Raised(_) => MessageRun(Ok(false), msgs, Some(run))
        case Ok(done) => MessageRun(Ok(done), Deleted(msgs, m, deleteFails), Some(run))
  }

  /** The acknowledgement policy: an unparsable or invalid message is deleted
      with `False` and no job; a job that returns is deleted with `True`; one
      refused with `ValueError` is deleted with `False`; one that raises
      anything else is kept with `False`. Only a body that is JSON but not an
      object makes the exception escape, and then nothing happens. */
  lemma {:induction false} AckPolicy(msgs: seq<Message>, m: Message, deleteFails: bool, table: Table, qutUsername: string,
                                     faults: TableFaults, unreachable: set<string>, objects: map<string, Blob>,
                                     t: Transcription, rank: Ranker, llm: Llm, now: string)
    ensures var r := MessageOutcome(msgs, m, deleteFails, table, qutUsername, faults, unreachable, objects, t, rank, llm, now);
            (r.result.Raised? <==> m.body == Some(NotAnObject))
            && (r.result.Raised? ==> r.result.exc == AttributeError && r.messages == msgs && r.run.None?)
            && (Accepted(m) == Ok(None) ==> r == MessageRun(Ok(false), Deleted(msgs, m, deleteFails), None))
            && (r.run.Some? <==> Accepted(m).Ok? && Accepted(m).value.Some?)
            && (r.run.Some? ==>
                  (r.result == Ok(true) <==> r.run.value.result.Ok?)
                  && (r.result.Ok? && (r.run.value.result.Ok? || r.run.value.result.exc.ValueError?)
                      ==> r.messages == Deleted(msgs, m, deleteFails))
                  && (r.run.value.result.Raised? && !r.run.value.result.exc.ValueError?
                      ==> r.result == Ok(false) && r.messages == msgs))
  {
    var r := MessageOutcome(msgs, m, deleteFails, table, qutUsername, faults, unreachable, objects, t, rank, llm, now);
    if r.run.Some? {
      var j := JobOutcome(r.run.value.result);
      assert j.Raised? ==> r.result == Ok(false) && r.messages == msgs;
      assert j.Ok? ==> r.result == j && r.messages == Deleted(msgs, m, deleteFails);
    }
  }

  /** A job refused before any write (missing record, wrong owner, no s3_key,
      failed download) is deleted, and the record keeps whatever status it
      had, such as the trigger's "processing". */
  lemma RefusedJobIsDeletedLeavingStatus(msgs: seq<Message>, m: Message, deleteFails: bool, table: Table, qutUsername: string,
                                         faults: TableFaults, unreachable: set<string>, objects: map<string, Blob>,
                                         t: Transcription, rank: Ranker, llm: Llm, now: string)
    requires var r := MessageOutcome(msgs, m, deleteFails, table, qutUsername, faults, unreachable, objects, t, rank, llm, now);
             r.run.Some? && r.run.value.result.Raised? && r.run.value.result.exc.ValueError?
    ensures var r := MessageOutcome(msgs, m, deleteFails, table, qutUsername, faults, unreachable, objects, t, rank, llm, now);
            r.result == Ok(false) && r.messages == Deleted(msgs, m, deleteFails)
            && r.run.value.statuses == [] && r.run.value.table == table && r.run.value.objects == objects
  {
    var job := Accepted(m).value.value;
    var videoId := Render(job.videoId.value);
    var owner := Render(job.ownerUsername.value);
    ProcessRunShape(table, TableKey(qutUsername, SortKey(owner, videoId)), videoId, owner, faults, unreachable, objects, t, rank, llm, now);
  }

  /** A job whose pipeline fails after "processing" and writes "error" is
      kept for redelivery, and its record is left in "error". */
  lemma FailedJobIsKeptInError(msgs: seq<Message>, m: Message, deleteFails: bool, table: Table, qutUsername: string,
                               faults: TableFaults, unreachable: set<string>, objects: map<string, Blob>,
                               t: Transcription, rank: Ranker, llm: Llm, now: string)
    requires var r := MessageOutcome(msgs, m, deleteFails, table, qutUsername, faults, unreachable, objects, t, rank, llm, now);
             r.run.Some? && r.run.value.statuses == [Processing, Error]
    ensures var r := MessageOutcome(msgs, m, deleteFails, table, qutUsername, faults, unreachable, objects, t, rank, llm, now);
            var job := Accepted(m).value.value;
            var k := TableKey(qutUsername, SortKey(Render(job.ownerUsername.value), Render(job.videoId.value)));
            r.result == Ok(false) && r.messages == msgs
            && k in table && r.run.value.table == table[k := table[k]["status" := S("error")]]
  {
    var job := Accepted(m).value.value;
    var videoId := Render(job.videoId.value);
    var owner := Render(job.ownerUsername.value);
    var k := TableKey(qutUsername, SortKey(owner, videoId));
    ProcessRunShape(table, k, videoId, owner, faults, unreachable, objects, t, rank, llm, now);
    FailedRunMarksError(table, k, videoId, owner, faults, unreachable, objects, t, rank, llm, now);
  }

  /** A job stopped by a refused table write after "processing" raises the
      table's `ClientError`, which is not a `ValueError`: the message is
      kept for redelivery and the record stays in "processing". */
  lemma RefusedWriteKeepsJobInProcessing(msgs: seq<Message>, m: Message, deleteFails: bool, table: Table, qutUsername: string,
                                         faults: TableFaults, unreachable: set<string>, objects: map<string, Blob>,
                                         t: Transcription, rank: Ranker, llm: Llm, now: string)
    requires var r := MessageOutcome(msgs, m, deleteFails, table, qutUsername, faults, unreachable, objects, t, rank, llm, now);
             r.run.Some? && r.run.value.statuses == [Processing]
    ensures var r := MessageOutcome(msgs, m, deleteFails, table, qutUsername, faults, unreachable, objects, t, rank, llm, now);
            var job := Accepted(m).value.value;
            var k := TableKey(qutUsername, SortKey(Render(job.ownerUsername.value), Render(job.videoId.value)));
            r.result == Ok(false) && r.messages == msgs && r.run.value.result == Raised(Unavailable)
            && k in r.run.value.table && Get(r.run.value.table[k], "status") == Some(S("processing"))
  {
    var job := Accepted(m).value.value;
    var videoId := Render(job.videoId.value);
    var owner := Render(job.ownerUsername.value);
    var k := TableKey(qutUsername, SortKey(owner, videoId));
    RefusedWriteLeavesProcessing(table, k, videoId, owner, faults, unreachable, objects, t, rank, llm, now);
  }

  /** What the remote calls do for one message of a batch. */
  datatype MessageEnv = MessageEnv(t: Transcription, llm: Llm, now: string, faults: TableFaults, deleteFails: bool)

  class VideoProcessingWorker {
    const service: VideoService
    const queue: MessageQueue
    var running: bool

    constructor(service: VideoService, queue: MessageQueue)
      ensures this.service == service && this.queue == queue && running
    {
      this.service := service;
      this.queue := queue;
      running := true;
    }

    /** `_signal_handler` */
    method SignalHandler()
      modifies this
      ensures !running
    {
      running := false;
    }

    /** `process_single_job` around `process_with_timeout_management`, which
        returns `process_video`'s result and lets its exceptions through. */
    method ProcessSingleJob(videoId: string, ownerUsername: string, t: Transcription, llm: Llm, now: string,
                            faults: TableFaults)
      returns (r: Result<bool>)
      requires service.compressor.Valid()
      modifies service.repo.ddb, service.blobs, service.cache, service.compressor, service
      ensures service.compressor.Valid()
      ensures var run := ProcessOutcome(old(service.repo.ddb.table), service.repo.ddb.KeyFor(videoId, ownerUsername),
                                        videoId, ownerUsername, faults, service.blobs.unreachable, old(service.blobs.objects),
                                        t, service.compressor.rank, llm, now);
              r == JobOutcome(run.result) && service.statusWrites == old(service.statusWrites) + run.statuses
              && service.repo.ddb.table == run.table && service.blobs.objects == run.objects
    {
      var result := service.ProcessVideo(videoId, ownerUsername, t, llm, now, faults);
      r := JobOutcome(result);
    }

    /** `_process_message` */
    method ProcessMessage(m: Message, t: Transcription, llm: Llm, now: string, faults: TableFaults, deleteFails: bool)
      returns (r: Result<bool>)
      requires service.compressor.Valid()
      modifies service.repo.ddb, service.blobs, service.cache, service.compressor, service, queue
      ensures service.compressor.Valid()
      ensures var run := MessageOutcome(old(queue.messages), m, deleteFails, old(service.repo.ddb.table),
                                        service.repo.ddb.qutUsername, faults, service.blobs.unreachable,
                                        old(service.blobs.objects), t, service.compressor.rank, llm, now);
              r == run.result && queue.messages == run.messages
              && (run.run.None? ==> service.repo.ddb.table == old(service.repo.ddb.table)
                                    && service.blobs.objects == old(service.blobs.objects)
                                    && service.statusWrites == old(service.statusWrites))
              && (run.run.Some? ==> service.repo.ddb.table == run.run.value.table
                                    && service.blobs.objects == run.run.value.objects
                                    && service.statusWrites == old(service.statusWrites) + run.run.value.statuses)
    {
      var parsed := ParseMessage(m);
      if parsed.Raised? {
        return Raised(parsed.exc);
      }
      if parsed.value.None? || !IsValidJobData(parsed.value.value) {
        var _ := queue.Delete(m, deleteFails);
        return Ok(false);
      }
      var job := parsed.value.value;
      var success := ProcessSingleJob(Render(job.videoId.value), Render(job.ownerUsername.value), t, llm, now, faults);
      if success.Raised? {
        return Ok(false);
      }
      var _ := queue.Delete(m, deleteFails);
      r := success;
    }

    /** The `for message in messages` loop of `run`. The shutdown signal is an
        input: it arrives just before message `signalAt` is looked at. An
        exception escaping `_process_message` ends the batch. */
    method ProcessBatch(batch: seq<Message>, signalAt: nat, env: nat -> MessageEnv) returns (handled: nat, raised: bool)
      requires service.compressor.Valid()
      modifies service.repo.ddb, service.blobs, service.cache, service.compressor, service, queue, this
      ensures service.compressor.Valid()
      ensures handled <= |batch|
      ensures !old(running) ==> handled == 0 && !raised && queue.messages == old(queue.messages)
      ensures old(running) && !raised ==> handled == Min(signalAt, |batch|)
      ensures raised ==> 0 < handled <= signalAt && batch[handled - 1].body == Some(NotAnObject)
      ensures running == (old(running) && (raised || signalAt >= |batch|))
      ensures forall x :: x in queue.messages ==> x in old(queue.messages)
    {
      handled := 0;
      raised := false;
      ghost var start := queue.messages;
      while handled < |batch|
        invariant service.compressor.Valid()
        invariant handled <= |batch|
        invariant !old(running) ==> handled == 0 && queue.messages == start
        invariant old(running) ==> handled <= signalAt && running
        invariant !old(running) ==> !running
        invariant forall x :: x in queue.messages ==> x in start
        decreases |batch| - handled
      {
        if handled == signalAt {
          SignalHandler();
        }
        if !running {
          break;
        }
        var e := env(handled);
        ghost var before := (queue.messages, service.repo.ddb.table, service.blobs.objects);
        var r := ProcessMessage(batch[handled], e.t, e.llm, e.now, e.faults, e.deleteFails);
        handled := handled + 1;
        if r.Raised? {
          AckPolicy(before.0, batch[handled - 1], e.deleteFails, before.1, service.repo.ddb.qutUsername,
                    e.faults, service.blobs.unreachable, before.2, e.t, service.compressor.rank, e.llm, e.now);
          raised := true;
          break;
        }
      }
    }
  }
}

// Decoding and validating a job message (`DLQMessageHandler`): the job data
// is the body's two identifiers plus the envelope's id and receipt handle.

module MessageHandler {
  import opened Common
  import opened Queue

  /** The dict `parse_message` returns; an absent key of the body is `None`. */
  datatype JobData = JobData(videoId: Option<AttrValue>, ownerUsername: Option<AttrValue>,
                             messageId: Option<string>, receiptHandle: Option<string>)

  /** `parse_message`: `None` for a message without `Body` (`KeyError`) or
      with a body that is not JSON (`JSONDecodeError`). A JSON body that is
      not an object has no `.get`: the `AttributeError` is not caught. */
  function ParseMessage(m: Message): (r: Result<Option<JobData>>)
    ensures r == Ok(None) <==> m.body.None? || m.body == Some(Malformed)
    ensures r.Raised? <==> m.body == Some(NotAnObject)
    ensures r.Raised? ==> r.exc == AttributeError
    ensures r.Ok? && r.value.Some? ==>
              m.body.Some? && m.body.value.Job?
              && r.value.value.videoId == m.body.value.videoId
              && r.value.value.ownerUsername == m.body.value.ownerUsername
              && r.value.value.messageId == Some(m.messageId)
              && r.value.value.receiptHandle == Some(m.receiptHandle)
  {
    match m.body
    case None => Ok(None)
    case Some(Malformed) => Ok(None)
    case Some(NotAnObject) => Raised(AttributeError)
    case Some(Job(videoId, ownerUsername, _)) =>
      Ok(Some(JobData(videoId, ownerUsername, Some(m.messageId), Some(m.receiptHandle))))
  }

  /** `job_data.get(field)` is truthy. */
  predicate Present(v: Option<AttrValue>)
  {
    v.Some? && Truthy(v.value)
  }

  /** `is_valid_job_data`: the dict always has its four keys, so it is never
      empty; the two identifiers must be truthy. */
  predicate IsValidJobData(j: JobData)
  {
    Present(j.videoId) && Present(j.ownerUsername)
  }

  /** The verdict on a received message: `None` when it is to be dropped as
      invalid, the job data otherwise, or the exception parsing raised. */
  function Accepted(m: Message): (r: Result<Option<JobData>>)
    ensures r.Raised? <==> m.body == Some(NotAnObject)
    ensures r.Ok? && r.value.Some? <==>
              m.body.Some? && m.body.value.Job? && Present(m.body.value.videoId) && Present(m.body.value.ownerUsername)
    ensures r.Ok? && r.value.Some? ==> ParseMessage(m) == r && IsValidJobData(r.value.value)
  {
    match ParseMessage(m)
    case Raised(e) => Raised(e)
    case Ok(j) => if j.Some? && IsValidJobData(j.value) then Ok(j) else Ok(None)
  }

  /** Only the two identifiers decide validity: a message id or receipt
      handle is not required. */
  lemma EnvelopeNotRequired(j: JobData)
    ensures IsValidJobData(j) == IsValidJobData(j.(messageId := None, receiptHandle := None))
  {
  }

  /** An empty or absent identifier makes the job invalid. */
  lemma BlankIdentifierIsInvalid(j: JobData)
    requires j.videoId in {None, Some(S("")), Some(N(0))} || j.ownerUsername in {None, Some(S("")), Some(N(0))}
    ensures !IsValidJobData(j)
  {
  }
}

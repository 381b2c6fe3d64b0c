// The video endpoints: the upload URL request is refused for an empty file
// name or an unsupported extension, the read endpoints turn an empty answer
// of the service into 404, and two endpoints fail on every record they find.

module VideosApi {
  import opened Common
  import opened VideoRepository
  import opened VideoService
  import opened Blobs
  import S3Keys
  import Settings

  /** The formats `get_presigned_url` accepts: six video and seven audio ones. */
  const SupportedFormats: seq<string> :=
    ["mp4", "avi", "mov", "wmv", "flv", "webm", "mp3", "wav", "aac", "ogg", "flac", "m4a", "wma"]

  /** The expiry `create_presigned_url` uses by default, in seconds. */
  const DefaultExpiresIn: int := 3600

  const NoFilename: Exception := HttpException(400, "No filename provided")
  const InvalidFormat: Exception :=
    HttpException(400, "Invalid file format. Supported formats: video (mp4, avi, mov, wmv, flv, webm) and audio (mp3, wav, aac, ogg, flac, m4a, wma)")
  const VideoNotFound: Exception := HttpException(404, "Video not found")
  const TranscriptNotFound: Exception := HttpException(404, "Transcript not found. Please process the video first.")
  const SummaryNotFound: Exception := HttpException(404, "Summary not found. Please process the video first.")
  /** `str(e)` of the `AttributeError` raised by the missing `VideoInfo.from_domain`. */
  const NoFromDomain: string := "type object 'VideoInfo' has no attribute 'from_domain'"

  /** `get_presigned_url`. `fileId` is the UUID the upload gets, `sign` the
      signer, and `signError` the text of the exception signing raises, if
      it does. */
  function GetPresignedUrl(filename: string, contentType: string, fileId: string, bucket: string,
                           sign: S3Keys.SignRequest -> string, signError: Option<string>): (r: Result<S3Keys.PresignedUpload>)
    ensures filename == "" ==> r == Raised(NoFilename)
    ensures filename != "" && Extension(filename) !in SupportedFormats ==> r == Raised(InvalidFormat)
    ensures r.Ok? <==> filename != "" && Extension(filename) in SupportedFormats && signError.None?
    ensures r.Ok? ==> r.value == S3Keys.CreatePresignedUrl(filename, contentType, DefaultExpiresIn, fileId, bucket, sign)
                      && r.value.s3Key == "videos/" + fileId + "_" + filename
    ensures filename != "" && Extension(filename) in SupportedFormats && signError.Some? ==>
              r == Raised(HttpException(500, "Error generating presigned URL: " + signError.value))
  {
    if filename == "" then Raised(NoFilename)
    else if Extension(filename) !in SupportedFormats then Raised(InvalidFormat)
    else if signError.Some? then Raised(HttpException(500, "Error generating presigned URL: " + signError.value))
    else Ok(S3Keys.CreatePresignedUrl(filename, contentType, DefaultExpiresIn, fileId, bucket, sign))
  }

  /** The endpoint accepts the extensions the settings allow, and every
      extension the service files as audio. */
  lemma FormatsAgree()
    ensures SupportedFormats == Settings.AllowedVideoExtensions
    ensures forall e :: e in AudioExtensions ==> e in SupportedFormats
  {
  }

  /** A bare name is judged by its whole lower-cased name, so "MP4" passes. */
  lemma BareUpperCaseName(contentType: string, fileId: string, bucket: string, sign: S3Keys.SignRequest -> string)
    ensures GetPresignedUrl("MP4", contentType, fileId, bucket, sign, None).Ok?
  {
    ExtensionWithoutDot("MP4");
    assert Lower("MP4") == "mp4";
  }

  /** The extension is lower-cased before the test: "clip.MOV" passes. */
  lemma UpperCaseExtension(name: string, contentType: string, fileId: string, bucket: string,
                           sign: S3Keys.SignRequest -> string)
    ensures GetPresignedUrl(name + ".MOV", contentType, fileId, bucket, sign, None).Ok?
  {
    assert name + ".MOV" == name + "." + "MOV";
    ExtensionAfterLastDot(name, "MOV");
    assert Lower("MOV") == "mov";
  }

  /** Only the last extension counts: a video name with an executable
      extension appended is refused. */
  lemma LastExtensionIsJudged(name: string, contentType: string, fileId: string, bucket: string,
                              sign: S3Keys.SignRequest -> string, signError: Option<string>)
    ensures GetPresignedUrl(name + ".mp4" + ".exe", contentType, fileId, bucket, sign, signError) == Raised(InvalidFormat)
  {
    var n := name + ".mp4";
    assert name + ".mp4" + ".exe" == n + "." + "exe";
    ExtensionAfterLastDot(n, "exe");
    ExeUnsupported();
  }

  lemma ExeUnsupported()
    ensures Lower("exe") !in SupportedFormats
  {
    var e := Lower("exe");
    assert e[0] == 'e';
    forall i | 0 <= i < |SupportedFormats| ensures SupportedFormats[i] != e {
      assert SupportedFormats[i][0] != 'e';
    }
  }

  /** `get_videos`, given what `get_all_videos` listed: an empty list comes
      back as it is; any video makes the missing `VideoInfo.from_domain`
      raise, which the handler turns into 500. */
  function GetVideos(videos: seq<ListedVideo>): (r: Result<seq<ListedVideo>>)
    ensures r.Ok? <==> videos == []
    ensures r.Ok? ==> r.value == []
    ensures r.Raised? ==> r.exc == HttpException(500, "Error fetching videos: " + NoFromDomain)
  {
    if videos == [] then Ok([]) else Raised(HttpException(500, "Error fetching videos: " + NoFromDomain))
  }

  /** `get_video_info`, given what the service's `get_video_info` returned:
      nothing found is 404; a found record is a dict, so reading its
      `owner_username` attribute raises `AttributeError`, which nothing
      catches; what the service raised is not caught either. */
  function GetVideoInfo(video: Result<Option<Item>>): (r: Result<Item>)
    ensures r.Raised?
    ensures video.Raised? ==> r == Raised(video.exc)
    ensures video.Ok? ==> (r == Raised(VideoNotFound) <==> !Found(video.value))
    ensures video.Ok? && Found(video.value) ==> r == Raised(AttributeError)
  {
    match video
    case Raised(e) => Raised(e)
    case Ok(v) => if !Found(v) then Raised(VideoNotFound) else Raised(AttributeError)
  }

  /** `delete_video`: 204 (no content) or 404; what the service raised is
      not caught. */
  function DeleteVideo(deleted: Result<bool>): (r: Result<()>)
    ensures r.Ok? <==> deleted == Ok(true)
    ensures deleted == Ok(false) ==> r == Raised(VideoNotFound)
    ensures deleted.Raised? ==> r == Raised(deleted.exc)
  {
    match deleted
    case Raised(e) => Raised(e)
    case Ok(d) => if !d then Raised(VideoNotFound) else Ok(())
  }

  /** `get_transcript_text`: 404 for no text or an empty one; what the
      service raised is not caught. */
  function GetTranscriptText(transcript: Result<Option<string>>): (r: Result<string>)
    ensures r.Ok? <==> transcript.Ok? && transcript.value.Some? && transcript.value.value != ""
    ensures r.Ok? ==> r.value == transcript.value.value
    ensures transcript.Raised? ==> r == Raised(transcript.exc)
    ensures transcript.Ok? && r.Raised? ==> r.exc == TranscriptNotFound
  {
    match transcript
    case Raised(e) => Raised(e)
    case Ok(text) => if text.None? || text.value == "" then Raised(TranscriptNotFound) else Ok(text.value)
  }

  /** `get_summary`: the summary under the key "summary", or 404 for a falsy
      one; what the service raised is not caught. */
  function GetSummary(summary: Result<Option<AttrValue>>): (r: Result<map<string, AttrValue>>)
    ensures r.Ok? <==> summary.Ok? && summary.value.Some? && Truthy(summary.value.value)
    ensures r.Ok? ==> r.value == map["summary" := summary.value.value]
    ensures summary.Raised? ==> r == Raised(summary.exc)
    ensures summary.Ok? && r.Raised? ==> r.exc == SummaryNotFound
  {
    match summary
    case Raised(e) => Raised(e)
    case Ok(v) => if v.None? || !Truthy(v.value) then Raised(SummaryNotFound) else Ok(map["summary" := v.value])
  }

  /** A transcript is served only for a completed record the caller owns,
      and it is the text stored under the record's text key. */
  lemma ServedTranscriptIsStored(info: Option<Item>, ownerUsername: string, unreachable: set<string>,
                                 objects: map<string, Blob>)
    ensures var r := GetTranscriptText(Ok(TranscriptOf(info, ownerUsername, unreachable, objects)));
            r.Ok? ==> Owns(info, ownerUsername) && Get(info.value, "status") == Some(S("completed"))
                      && var key := KeyAt(info.value, "transcript_text_s3_key");
                         key.Some? && ReadObject(unreachable, objects, key.value) == Ok(PlainTextFile(r.value))
                         && r.value != ""
  {
  }

  /** A record that is not completed, or owned by someone else, gets 404
      from both result endpoints. */
  lemma UnfinishedResultsAre404(info: Option<Item>, ownerUsername: string, unreachable: set<string>,
                                objects: map<string, Blob>)
    requires !Owns(info, ownerUsername) || Get(info.value, "status") != Some(S("completed"))
    ensures GetTranscriptText(Ok(TranscriptOf(info, ownerUsername, unreachable, objects))) == Raised(TranscriptNotFound)
    ensures GetSummary(Ok(SummaryOf(info, ownerUsername))) == Raised(SummaryNotFound)
  {
  }
}

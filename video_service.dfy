// `VideoService`: registering an upload, the cache-first read of a record,
// deletion of a record with its S3 objects, and `process_video`, which takes one
// video from "processing" to "completed" or "error" and stores its transcript.

module VideoService {
  import opened Common
  import opened UpdateExpression
  import opened Store
  import opened VideoRepository
  import opened Cache
  import opened Blobs
  import opened TextCompressor
  import opened Summary
  import S3Keys

  // ---------------------------------------------------------------------------
  // File type

  const AudioExtensions: seq<string> := ["mp3", "wav", "aac", "ogg", "flac", "m4a", "wma"]

  /** `filename.split(".")[-1].lower()`: what follows the last dot (the whole
      name when there is none), lower-cased. */
  function Extension(filename: string): (r: string)
    ensures '.' !in r
  {
    var parts := SplitOn(filename, '.');
    SplitOnLastHasNo(filename, '.');
    Lower(parts[|parts| - 1])
  }

  /** The `file_type` stored for an upload: "audio" exactly for the seven
      audio extensions, in any letter case, after the last dot. */
  function FileType(filename: string): (r: string)
    ensures r == "audio" || r == "video"
    ensures r == "audio" <==> Extension(filename) in AudioExtensions
  {
    if Extension(filename) in AudioExtensions then "audio" else "video"
  }

  /** The extension is exactly what follows the last dot. */
  lemma ExtensionAfterLastDot(name: string, ext: string)
    requires '.' !in ext
    ensures Extension(name + "." + ext) == Lower(ext)
    ensures FileType(name + "." + ext) == (if Lower(ext) in AudioExtensions then "audio" else "video")
  {
    assert name + "." + ext == name + ['.'] + ext;
    SplitOnLast(name, '.', ext);
  }

  /** A name without a dot is its own extension. */
  lemma ExtensionWithoutDot(filename: string)
    requires '.' !in filename
    ensures Extension(filename) == Lower(filename)
  {
  }

  /** The test ignores letter case. */
  lemma UpperCaseAudio(name: string)
    ensures FileType(name + ".MP3") == "audio"
  {
    assert name + ".MP3" == name + "." + "MP3";
    ExtensionAfterLastDot(name, "MP3");
    var e := Lower("MP3");
    assert e[0] == 'm' && e[1] == 'p' && e[2] == '3';
    assert e == AudioExtensions[0];
  }

  /** Only the last extension counts. */
  lemma LastExtensionDecides(name: string)
    ensures FileType(name + ".mp3" + ".mp4") == "video"
  {
    assert name + ".mp3" + ".mp4" == (name + ".mp3") + "." + "mp4";
    ExtensionAfterLastDot(name + ".mp3", "mp4");
    var e := Lower("mp4");
    assert e[2] == '4' && |e| == 3;
    forall i | 0 <= i < |AudioExtensions| ensures AudioExtensions[i] != e {
      var x := AudioExtensions[i];
      assert |x| != 3 || x[2] != '4';
    }
  }

  /** A bare name such as "wav" counts as audio. */
  lemma BareNameIsItsExtension()
    ensures FileType("wav") == "audio"
  {
    ExtensionWithoutDot("wav");
    assert Lower("wav") == "wav" == AudioExtensions[1];
  }

  // ---------------------------------------------------------------------------
  // Transcript artifacts

  function TranscriptJsonKey(videoId: string): string
  {
    "transcripts/" + videoId + "/transcript.json"
  }

  function TranscriptTextKey(videoId: string): string
  {
    "transcripts/" + videoId + "/transcript.txt"
  }

  function TranscriptMetadataKey(videoId: string): string
  {
    "transcripts/" + videoId + "/metadata.json"
  }

  /** The three artifact kinds never share a key, within one video or across
      two. */
  lemma ArtifactKindsApart(v1: string, v2: string)
    ensures TranscriptJsonKey(v1) != TranscriptTextKey(v2)
    ensures TranscriptJsonKey(v1) != TranscriptMetadataKey(v2)
    ensures TranscriptTextKey(v1) != TranscriptMetadataKey(v2)
  {
    var j, t, m := TranscriptJsonKey(v1), TranscriptTextKey(v2), TranscriptMetadataKey(v2);
    assert j[|j| - 1] == 'n' && t[|t| - 1] == 't';
    assert j[|j| - 6] == 't' && m[|m| - 6] == 'a';
    var t1, m2 := TranscriptTextKey(v1), TranscriptMetadataKey(v2);
    assert t1[|t1| - 1] == 't' && m2[|m2| - 1] == 'n';
  }

  /** Each artifact key names one video. */
  lemma ArtifactKeysInjective(v1: string, v2: string)
    ensures TranscriptJsonKey(v1) == TranscriptJsonKey(v2) ==> v1 == v2
    ensures TranscriptTextKey(v1) == TranscriptTextKey(v2) ==> v1 == v2
    ensures TranscriptMetadataKey(v1) == TranscriptMetadataKey(v2) ==> v1 == v2
  {
    if TranscriptJsonKey(v1) == TranscriptJsonKey(v2) {
      assert v1 == TranscriptJsonKey(v1)[12..12 + |v1|];
    }
    if TranscriptTextKey(v1) == TranscriptTextKey(v2) {
      assert v1 == TranscriptTextKey(v1)[12..12 + |v1|];
    }
    if TranscriptMetadataKey(v1) == TranscriptMetadataKey(v2) {
      assert v1 == TranscriptMetadataKey(v1)[12..12 + |v1|];
    }
  }

  /** Artifacts live outside the upload prefix: writing them never replaces an
      uploaded file. */
  lemma ArtifactsAvoidUploads(videoId: string, fileId: string, filename: string)
    ensures TranscriptJsonKey(videoId) != S3Keys.VideoKey(fileId, filename)
    ensures TranscriptTextKey(videoId) != S3Keys.VideoKey(fileId, filename)
    ensures TranscriptMetadataKey(videoId) != S3Keys.VideoKey(fileId, filename)
  {
    var u := S3Keys.VideoKey(fileId, filename);
    assert u[0] == 'v';
    assert TranscriptJsonKey(videoId)[0] == 't';
    assert TranscriptTextKey(videoId)[0] == 't';
    assert TranscriptMetadataKey(videoId)[0] == 't';
  }

  /** `_extract_full_transcript`: a plain string as it is; otherwise the
      stripped non-blank segment texts joined by single spaces. */
  function FullTranscript(t: Transcription): (r: string)
    ensures t.PlainText? ==> r == t.text
    ensures t.Segments? ==> (r == [] <==> SegmentTexts(t.segments) == [])
  {
    match t
    case PlainText(s) => s
    case Segments(segs) =>
      JoinOfNonEmpty(" ", SegmentTexts(segs));
      Join(" ", SegmentTexts(segs))
  }

  lemma JoinOfNonEmpty(sep: string, parts: seq<string>)
    requires forall i :: 0 <= i < |parts| ==> parts[i] != []
    ensures Join(sep, parts) == [] <==> parts == []
  {
    if |parts| >= 2 {
      JoinCons(sep, parts);
    }
  }

  /** The full text of a segment list is empty exactly when every segment is
      blank. */
  lemma FullTranscriptBlank(segs: seq<Segment>)
    ensures FullTranscript(Segments(segs)) == [] <==> forall i :: 0 <= i < |segs| ==> AllSpace(TextOf(segs[i]))
  {
    SegmentTextsEmptyIff(segs);
    JoinOfNonEmpty(" ", SegmentTexts(segs));
  }

  /** A single segment's full text is that segment's text, stripped. */
  lemma FullTranscriptOfOne(text: string)
    requires !AllSpace(text)
    ensures FullTranscript(Segments([Segment(Some(text))])) == Strip(text)
  {
    var segs := [Segment(Some(text))];
    var u := Strip(text);
    StripEmptyIffAllSpace(text);
    assert segs[..|segs| - 1] == [];
    assert SegmentTexts(segs) == SegmentTexts([]) + [u];
    assert Join(" ", [u]) == u;
  }

  /** `len(segments) if isinstance(segments, list) else 0` */
  function SegmentsCount(t: Transcription): nat
  {
    if t.Segments? then |t.segments| else 0
  }

  /** The statistics and keys `_save_transcript` returns. */
  datatype TranscriptData = TranscriptData(transcriptS3Key: string, textS3Key: string, metadataS3Key: string,
                                           segmentsCount: nat, totalCharacters: nat, totalWords: nat,
                                           fullText: string)

  function TranscriptDataFor(videoId: string, t: Transcription): (r: TranscriptData)
    ensures r.totalCharacters == |r.fullText| && r.totalWords == |Words(r.fullText)|
    ensures r.fullText == FullTranscript(t) && r.segmentsCount == SegmentsCount(t)
    ensures r.transcriptS3Key == TranscriptJsonKey(videoId) && r.textS3Key == TranscriptTextKey(videoId)
    ensures r.metadataS3Key == TranscriptMetadataKey(videoId)
  {
    var full := FullTranscript(t);
    TranscriptData(TranscriptJsonKey(videoId), TranscriptTextKey(videoId), TranscriptMetadataKey(videoId),
                   SegmentsCount(t), |full|, |Words(full)|, full)
  }

  /** The `metadata.json` document; `now` is `datetime.now().isoformat()`. */
  function MetadataFor(videoId: string, t: Transcription, now: string): (r: TranscriptMetadata)
    ensures var d := TranscriptDataFor(videoId, t);
            r.videoId == videoId && r.createdAt == now
            && r.segmentsCount == d.segmentsCount && r.totalCharacters == d.totalCharacters
            && r.totalWords == d.totalWords
            && r.transcriptS3Key == d.transcriptS3Key && r.textS3Key == d.textS3Key
  {
    var d := TranscriptDataFor(videoId, t);
    TranscriptMetadata(videoId, now, d.segmentsCount, d.totalCharacters, d.totalWords, d.transcriptS3Key, d.textS3Key)
  }

  /** The three `put_object` calls of `_save_transcript`, in order. */
  function Artifacts(videoId: string, t: Transcription, now: string): seq<(string, Blob)>
  {
    [(TranscriptJsonKey(videoId), SegmentsJson(t)),
     (TranscriptTextKey(videoId), PlainTextFile(FullTranscript(t))),
     (TranscriptMetadataKey(videoId), MetadataJson(MetadataFor(videoId, t, now)))]
  }

  /** The bucket after a run of puts that stops at the first refused one. */
  function Stored(objects: map<string, Blob>, unreachable: set<string>, writes: seq<(string, Blob)>): map<string, Blob>
    decreases |writes|
  {
    if writes == [] || writes[0].0 in unreachable then objects
    else Stored(objects[writes[0].0 := writes[0].1], unreachable, writes[1..])
  }

  /** A run of puts succeeds when no key is refused, and otherwise raises. */
  function SaveOutcome(unreachable: set<string>, writes: seq<(string, Blob)>): Result<()>
  {
    if forall i :: 0 <= i < |writes| ==> writes[i].0 !in unreachable then Ok(()) else Raised(AccessDenied)
  }

  /** The three artifacts, spelled out from the transcript's text and its
      metadata document. */
  lemma ArtifactsSpelled(videoId: string, t: Transcription, now: string, fullText: string, metadata: TranscriptMetadata)
    requires fullText == FullTranscript(t)
    requires metadata == TranscriptMetadata(videoId, now, SegmentsCount(t), |fullText|, |Words(fullText)|,
                                            TranscriptJsonKey(videoId), TranscriptTextKey(videoId))
    ensures Artifacts(videoId, t, now) == [(TranscriptJsonKey(videoId), SegmentsJson(t)),
                                           (TranscriptTextKey(videoId), PlainTextFile(fullText)),
                                           (TranscriptMetadataKey(videoId), MetadataJson(metadata))]
    ensures TranscriptDataFor(videoId, t) == TranscriptData(TranscriptJsonKey(videoId), TranscriptTextKey(videoId),
                                                           TranscriptMetadataKey(videoId), SegmentsCount(t), |fullText|,
                                                           |Words(fullText)|, fullText)
  {
  }

  /** Three puts succeed exactly when none of the three keys is refused. */
  lemma SaveOutcomeThree(unreachable: set<string>, a: (string, Blob), b: (string, Blob), c: (string, Blob))
    ensures SaveOutcome(unreachable, [a, b, c]) ==
            if a.0 !in unreachable && b.0 !in unreachable && c.0 !in unreachable then Ok(()) else Raised(AccessDenied)
  {
    var w := [a, b, c];
    if a.0 !in unreachable && b.0 !in unreachable && c.0 !in unreachable {
      forall i | 0 <= i < 3 ensures w[i].0 !in unreachable {
      }
    } else {
      assert w[0] == a && w[1] == b && w[2] == c;
    }
  }

  /** Three puts, unfolded. */
  lemma StoredThree(objects: map<string, Blob>, unreachable: set<string>, w: seq<(string, Blob)>)
    requires |w| == 3
    ensures var o1 := objects[w[0].0 := w[0].1];
            var o2 := o1[w[1].0 := w[1].1];
            Stored(objects, unreachable, w) ==
              if w[0].0 in unreachable then objects
              else if w[1].0 in unreachable then o1
              else if w[2].0 in unreachable then o2
              else o2[w[2].0 := w[2].1]
  {
    var o1 := objects[w[0].0 := w[0].1];
    var o2 := o1[w[1].0 := w[1].1];
    assert w[1..][1..][1..] == [];
    assert Stored(o2, unreachable, w[1..][1..]) == if w[2].0 in unreachable then o2 else o2[w[2].0 := w[2].1];
    assert Stored(o1, unreachable, w[1..]) == if w[1].0 in unreachable then o1 else Stored(o2, unreachable, w[1..][1..]);
  }

  /** Saving touches only this video's three artifact keys; when nothing is
      refused all three hold their documents, and when the first is refused the
      bucket is unchanged. */
  lemma StoredArtifacts(objects: map<string, Blob>, unreachable: set<string>, videoId: string, t: Transcription, now: string)
    ensures var w := Artifacts(videoId, t, now);
            var s := Stored(objects, unreachable, w);
            var keys := {TranscriptJsonKey(videoId), TranscriptTextKey(videoId), TranscriptMetadataKey(videoId)};
            (forall key :: key !in keys ==> (key in s <==> key in objects) && (key in s ==> s[key] == objects[key]))
            && (SaveOutcome(unreachable, w).Ok? ==>
                  s == objects[w[0].0 := w[0].1][w[1].0 := w[1].1][w[2].0 := w[2].1])
            && (TranscriptJsonKey(videoId) in unreachable ==> s == objects)
  {
    StoredThree(objects, unreachable, Artifacts(videoId, t, now));
  }

  /** After a successful save the text artifact reads back as the full
      transcript, and the other two as their documents. */
  lemma SavedArtifactsReadBack(objects: map<string, Blob>, unreachable: set<string>, videoId: string, t: Transcription, now: string)
    requires SaveOutcome(unreachable, Artifacts(videoId, t, now)).Ok?
    ensures var s := Stored(objects, unreachable, Artifacts(videoId, t, now));
            ReadObject(unreachable, s, TranscriptTextKey(videoId)) == Ok(PlainTextFile(FullTranscript(t)))
            && ReadObject(unreachable, s, TranscriptJsonKey(videoId)) == Ok(SegmentsJson(t))
            && ReadObject(unreachable, s, TranscriptMetadataKey(videoId)) == Ok(MetadataJson(MetadataFor(videoId, t, now)))
  {
    var w := Artifacts(videoId, t, now);
    StoredThree(objects, unreachable, w);
    assert w == [w[0], w[1], w[2]];
    SaveOutcomeThree(unreachable, w[0], w[1], w[2]);
    ArtifactKindsApart(videoId, videoId);
    ThreePutsReadBack(objects, unreachable, w[0], w[1], w[2]);
  }

  /** Three puts under distinct keys, none refused, read back as written. */
  lemma ThreePutsReadBack(objects: map<string, Blob>, unreachable: set<string>, a: (string, Blob), b: (string, Blob),
                          c: (string, Blob))
    requires a.0 != b.0 && a.0 != c.0 && b.0 != c.0
    requires a.0 !in unreachable && b.0 !in unreachable && c.0 !in unreachable
    ensures var s := objects[a.0 := a.1][b.0 := b.1][c.0 := c.1];
            ReadObject(unreachable, s, a.0) == Ok(a.1) && ReadObject(unreachable, s, b.0) == Ok(b.1)
            && ReadObject(unreachable, s, c.0) == Ok(c.1)
  {
  }

  // ---------------------------------------------------------------------------
  // Records and ownership

  /** `not info`, negated: a record was found and is not empty. */
  predicate Found(record: Option<Item>)
  {
    record.Some? && record.value != map[]
  }

  /** `_assert_ownership` on the record read: found, and its `owner_username`
      is the caller. */
  predicate Owns(record: Option<Item>, ownerUsername: string)
  {
    Found(record) && Get(record.value, "owner_username") == Some(S(ownerUsername))
  }

  /** An object key held in a record attribute, when it is a non-empty string
      (a number there makes the S3 call fail its parameter check). */
  function KeyAt(info: Item, attr: string): Option<string>
  {
    if attr in info && info[attr].S? && info[attr].s != "" then Some(info[attr].s) else None
  }

  /** The attributes `delete_video` takes object keys from, in the order it
      deletes them. */
  const FileKeyAttrs: seq<string> := ["s3_key", "transcript_s3_key", "transcript_text_s3_key", "transcript_metadata_s3_key"]

  /** The object keys a record names among `attrs`. */
  function KeysNamed(info: Item, attrs: seq<string>): set<string>
  {
    set a | a in attrs && KeyAt(info, a).Some? :: KeyAt(info, a).value
  }

  lemma KeysNamedStep(info: Item, attrs: seq<string>, a: string)
    ensures KeysNamed(info, attrs + [a]) == KeysNamed(info, attrs) + (if KeyAt(info, a).Some? then {KeyAt(info, a).value} else {})
  {
    var l := KeysNamed(info, attrs + [a]);
    var r := KeysNamed(info, attrs) + (if KeyAt(info, a).Some? then {KeyAt(info, a).value} else {});
    forall x | x in l ensures x in r {
      var b :| b in attrs + [a] && KeyAt(info, b).Some? && KeyAt(info, b).value == x;
      if b != a { assert b in attrs; }
    }
    forall x | x in r ensures x in l {
      if x in KeysNamed(info, attrs) {
        var b :| b in attrs && KeyAt(info, b).Some? && KeyAt(info, b).value == x;
        assert b in attrs + [a];
      } else {
        assert a in attrs + [a];
      }
    }
  }

  /** A record written by `save_metadata` is owned by its uploader. */
  lemma SavedRecordIsOwned(qutUsername: string, videoId: string, filename: string, s3Key: string, s3Bucket: string,
                           fileType: string, ownerUsername: string, createdAt: Option<string>, status: string, now: string)
    ensures Owns(Some(MetadataItem(qutUsername, videoId, filename, s3Key, s3Bucket, fileType, ownerUsername, createdAt, status, now)),
                 ownerUsername)
  {
  }

  /** The record an upsert leaves behind where none was stored, only the key and
      one attribute, is owned by nobody. */
  lemma StubIsOwnedByNobody(k: TableKey, name: string, v: AttrValue, ownerUsername: string)
    requires name != "owner_username"
    ensures Found(Some(KeyItem(k)[name := v]))
    ensures !Owns(Some(KeyItem(k)[name := v]), ownerUsername)
  {
    var stub := KeyItem(k)[name := v];
    assert name in stub;
    assert "owner_username" != PartitionAttr && "owner_username" != SortKeyAttr;
    assert "owner_username" !in stub;
  }

  // ---------------------------------------------------------------------------
  // `process_video`

  const FileNotFound: Exception := ValueError("File not found")
  const NotAllowed: Exception := ValueError("Not allowed")
  const NoS3Key: Exception := ValueError("S3 key not found for this file")
  const DownloadFailedPrefix: string := "Failed to download file from S3: "
  const ParamValidation: Exception := OtherException("ParamValidationError")

  /** `ValueError(f"Failed to download file from S3: {e}")`, with `str(e)`
      reduced to the error code. */
  function DownloadFailure(e: Exception): (r: Exception)
    ensures r.ValueError? && DownloadFailedPrefix <= r.message
  {
    ValueError(DownloadFailedPrefix + (if e.ClientError? then e.code else ""))
  }

  /** The download of the record's file: the stored object under the
      record's non-empty `s3_key`, when that key is reachable. */
  function Download(unreachable: set<string>, objects: map<string, Blob>, info: Item): (r: Result<Blob>)
    ensures r.Ok? <==> KeyAt(info, "s3_key").Some? && KeyAt(info, "s3_key").value !in unreachable
                       && KeyAt(info, "s3_key").value in objects
    ensures r.Ok? ==> r.value == objects[info["s3_key"].s]
    ensures KeyAt(info, "s3_key").None? ==> r == Raised(ParamValidation)
  {
    match KeyAt(info, "s3_key")
    case None => Raised(ParamValidation)
    case Some(key) => ReadObject(unreachable, objects, key)
  }

  /** The fields `save_transcript_data` writes on success. */
  function CompletedFields(videoId: string, t: Transcription, compressed: string, summary: string): Fields
  {
    var d := TranscriptDataFor(videoId, t);
    TranscriptFields(compressed, summary, d.segmentsCount, d.totalCharacters, d.totalWords,
                     Some(d.transcriptS3Key), Some(d.textS3Key), Some(d.metadataS3Key), None)
  }

  /** The whole effect of `process_video`: what it returns or raises, the
      statuses it writes in order, and the bucket and table it leaves. */
  datatype ProcessRun = ProcessRun(result: Result<string>, statuses: seq<Status>,
                                   objects: map<string, Blob>, table: Table)

  /** Which of `process_video`'s table calls the service refuses: the read of
      the record, the second read in `_assert_ownership`, the write of
      "processing", the write of "error" in the `except` branch,
      `save_transcript_data`, and the write of "completed". */
  datatype TableFaults = TableFaults(read: bool, ownershipRead: bool, processing: bool, error: bool,
                                     save: bool, completed: bool)

  /** The checks before any write, in the order `process_video` makes them;
      `None` lets the run go on to the transcription. */
  function Refusal(record: Option<Item>, ownerUsername: string, faults: TableFaults, unreachable: set<string>,
                   objects: map<string, Blob>): (r: Option<Exception>)
    ensures r.None? <==> !faults.read && !faults.ownershipRead && Owns(record, ownerUsername)
                         && TruthyAt(record.value, "s3_key") && "filename" in record.value
                         && Download(unreachable, objects, record.value).Ok?
    ensures r.Some? ==> r.value.ValueError? || r.value == KeyError || r.value == Unavailable
    ensures faults.read ==> r == Some(Unavailable)
    ensures !faults.read && !Found(record) ==> r == Some(FileNotFound)
    ensures !faults.read && Found(record) && faults.ownershipRead ==> r == Some(Unavailable)
    ensures !faults.read && !faults.ownershipRead && Found(record) && !Owns(record, ownerUsername) ==> r == Some(NotAllowed)
  {
    if faults.read then Some(Unavailable)
    else if !Found(record) then Some(FileNotFound)
    else if faults.ownershipRead then Some(Unavailable)
    else if !Owns(record, ownerUsername) then Some(NotAllowed)
    else if !TruthyAt(record.value, "s3_key") then Some(NoS3Key)
    else if "filename" !in record.value then Some(KeyError)
    else match Download(unreachable, objects, record.value)
      case Raised(e) => Some(DownloadFailure(e))
      case Ok(_) => None
  }

  /** The `try` block up to the summary: the file type is read, the
      artifacts saved, the transcript compressed. Yields the compressed text
      or what was raised, and the bucket afterwards. */
  function Attempted(info: Item, videoId: string, unreachable: set<string>, objects: map<string, Blob>,
                     t: Transcription, rank: Ranker, now: string): (r: (Result<string>, map<string, Blob>))
    ensures "file_type" !in info ==> r == (Raised(KeyError), objects)
    ensures "file_type" in info ==> r.1 == Stored(objects, unreachable, Artifacts(videoId, t, now))
    ensures r.0.Ok? <==> "file_type" in info && SaveOutcome(unreachable, Artifacts(videoId, t, now)).Ok? && Compressed(rank, t).Ok?
    ensures r.0.Ok? ==> r.0 == Compressed(rank, t)
    ensures r.0.Raised? ==> r.0.exc in {KeyError, AccessDenied, AttributeError}
  {
    if "file_type" !in info then (Raised(KeyError), objects)
    else
      var writes := Artifacts(videoId, t, now);
      var step := if SaveOutcome(unreachable, writes).Raised? then Raised(AccessDenied) else Compressed(rank, t);
      (step, Stored(objects, unreachable, writes))
  }

  /** The ends of a run past the checks. */
  lemma FinishedCases(table: Table, k: TableKey, info: Item, step: Result<string>, objects': map<string, Blob>,
                      videoId: string, t: Transcription, llm: Llm, faults: TableFaults)
    ensures var run := Finished(table, k, info, step, objects', videoId, t, llm, faults);
            step.Raised? && faults.error ==>
              run == ProcessRun(Raised(Unavailable), [Processing], objects', table[k := Marked(info, Processing)])
    ensures var run := Finished(table, k, info, step, objects', videoId, t, llm, faults);
            step.Raised? && !faults.error ==>
              run == ProcessRun(step, [Processing, Error], objects', table[k := Marked(info, Error)])
    ensures var run := Finished(table, k, info, step, objects', videoId, t, llm, faults);
            step.Ok? && faults.save ==>
              run == ProcessRun(Raised(Unavailable), [Processing], objects', table[k := Marked(info, Processing)])
    ensures var run := Finished(table, k, info, step, objects', videoId, t, llm, faults);
            step.Ok? && !faults.save && faults.completed ==>
              var summary := GenerateSummary(Some(step.value), llm);
              run == ProcessRun(Raised(Unavailable), [Processing], objects',
                                table[k := SavedItem(info, videoId, t, step.value, summary)])
    ensures var run := Finished(table, k, info, step, objects', videoId, t, llm, faults);
            step.Ok? && !faults.save && !faults.completed ==>
              var summary := GenerateSummary(Some(step.value), llm);
              run == ProcessRun(Ok(summary), [Processing, Completed], objects',
                                table[k := CompletedItem(info, videoId, t, step.value, summary)])
  {
  }

  /** The status "processing" written before the `try` block: a run over the
      record so marked writes the same record, returns the same result and
      leaves the same bucket, and its statuses are the rest of the run. */
  lemma FinishedOverProcessing(table: Table, k: TableKey, info: Item, step: Result<string>, objects': map<string, Blob>,
                               videoId: string, t: Transcription, llm: Llm, faults: TableFaults)
    ensures var run := Finished(table, k, info, step, objects', videoId, t, llm, faults);
            var run' := Finished(table[k := Marked(info, Processing)], k, info, step, objects', videoId, t, llm, faults);
            run'.result == run.result && run'.objects == run.objects && run'.table == run.table
            && run.statuses == [Processing] + run'.statuses[1..] && 1 <= |run'.statuses| <= 2
  {
    Overwritten(table, k, Marked(info, Processing), FinalItem(info, step, videoId, t, llm, faults));
    RunStatuses(FinishedStatuses(step, faults));
  }

  /** Every run past the checks starts with "processing" and has one or two
      statuses. */
  lemma RunStatuses(statuses: seq<Status>)
    requires statuses == [Processing] || statuses == [Processing, Error] || statuses == [Processing, Completed]
    ensures statuses == [Processing] + statuses[1..] && 1 <= |statuses| <= 2
  {
  }

  /** The record with its status set. */
  function Marked(info: Item, st: Status): (r: Item)
    ensures Get(r, "status") == Some(S(StatusName(st)))
    ensures forall a :: a != "status" ==> Get(r, a) == Get(info, a)
  {
    info["status" := S(StatusName(st))]
  }

  /** The record a successful run leaves: the stored one, the transcript
      fields and the status "completed". */
  function CompletedItem(info: Item, videoId: string, t: Transcription, compressed: string, summary: string): Item
  {
    (info + FieldsMap(CompletedFields(videoId, t, compressed, summary)))["status" := S(StatusName(Completed))]
  }

  /** The record left when `save_transcript_data` went through and the write
      of "completed" was refused: the transcript fields over the record
      marked "processing". */
  function SavedItem(info: Item, videoId: string, t: Transcription, compressed: string, summary: string): Item
  {
    Marked(info, Processing) + FieldsMap(CompletedFields(videoId, t, compressed, summary))
  }

  /** The end of a run that got past the checks. On a raised step, the status
      "error" and the exception; a refused "error" write raises its own
      `ClientError` instead and leaves "processing". Otherwise the summary,
      the transcript fields and the status "completed"; those two writes are
      outside the `try`, so a refused one raises its `ClientError` and leaves
      "processing", with or without the fields. */
  function Finished(table: Table, k: TableKey, info: Item, step: Result<string>, objects': map<string, Blob>,
                    videoId: string, t: Transcription, llm: Llm, faults: TableFaults): (r: ProcessRun)
    ensures r.objects == objects' && |r.statuses| >= 1 && r.statuses[0] == Processing
    ensures r.result.Ok? <==> r.statuses == [Processing, Completed]
    ensures k in r.table && forall k' :: k' in table && k' != k ==> k' in r.table && r.table[k'] == table[k']
  {
    ProcessRun(FinishedResult(step, llm, faults), FinishedStatuses(step, faults), objects',
               table[k := FinalItem(info, step, videoId, t, llm, faults)])
  }

  /** What a run past the checks returns or raises. */
  function FinishedResult(step: Result<string>, llm: Llm, faults: TableFaults): (r: Result<string>)
    ensures r.Ok? <==> step.Ok? && !faults.save && !faults.completed
    ensures r.Ok? ==> r.value == GenerateSummary(Some(step.value), llm)
    ensures r.Raised? ==> r == step || r == Raised(Unavailable)
  {
    if step.Raised? then (if faults.error then Raised(Unavailable) else step)
    else if faults.save || faults.completed then Raised(Unavailable)
    else Ok(GenerateSummary(Some(step.value), llm))
  }

  /** The statuses a run past the checks writes: always "processing" first. */
  function FinishedStatuses(step: Result<string>, faults: TableFaults): (r: seq<Status>)
    ensures r == [Processing] || r == [Processing, Error] || r == [Processing, Completed]
    ensures r == [Processing, Error] <==> step.Raised? && !faults.error
    ensures r == [Processing, Completed] <==> step.Ok? && !faults.save && !faults.completed
  {
    if step.Raised? then (if faults.error then [Processing] else [Processing, Error])
    else if faults.save || faults.completed then [Processing]
    else [Processing, Completed]
  }

  /** The statuses written after "processing": "error" when a raised step's
      write goes through, "completed" when both writes after the `try` block
      go through, none otherwise. */
  function LaterStatuses(step: Result<string>, faults: TableFaults): seq<Status>
  {
    if step.Raised? then (if faults.error then [] else [Error])
    else if faults.save || faults.completed then []
    else [Completed]
  }

  /** The statuses after "processing" are the rest of the run's statuses. */
  lemma LaterAfterProcessing(step: Result<string>, faults: TableFaults)
    ensures FinishedStatuses(step, faults)[1..] == LaterStatuses(step, faults)
  {
  }

  /** The record a run past the checks leaves. */
  function FinalItem(info: Item, step: Result<string>, videoId: string, t: Transcription, llm: Llm,
                     faults: TableFaults): Item
  {
    if step.Raised? then (if faults.error then Marked(info, Processing) else Marked(info, Error))
    else
      var summary := GenerateSummary(Some(step.value), llm);
      if faults.save then Marked(info, Processing)
      else if faults.completed then SavedItem(info, videoId, t, step.value, summary)
      else CompletedItem(info, videoId, t, step.value, summary)
  }

  /** `process_video` as a function of the state it starts from. `t` is what
      transcription returns (the demo string when Whisper fails), `rank` the
      MMR ranking, `llm` the summarising model and `faults` the table calls
      the service refuses. The final record collapses the writes. */
  function ProcessOutcome(table: Table, k: TableKey, videoId: string, ownerUsername: string, faults: TableFaults,
                          unreachable: set<string>, objects: map<string, Blob>,
                          t: Transcription, rank: Ranker, llm: Llm, now: string): (r: ProcessRun)
    ensures r.statuses == [] ==> r.result.Raised? && r.table == table && r.objects == objects
    ensures r.statuses != [] ==> r.statuses[0] == Processing && k in table && k in r.table
  {
    var record := Lookup(table, k);
    match Refusal(record, ownerUsername, faults, unreachable, objects)
    case Some(e) => ProcessRun(Raised(e), [], objects, table)
    case None =>
      if faults.processing then ProcessRun(Raised(Unavailable), [], objects, table)
      else
        var step := Attempted(record.value, videoId, unreachable, objects, t, rank, now);
        Finished(table, k, record.value, step.0, step.1, videoId, t, llm, faults)
  }

  /** Four shapes only: stopped before any write, with nothing changed; or
      "processing" then "error", re-raising; or "processing" then
      "completed", returning the summary; or "processing" alone, when a later
      table write is refused and its `ClientError` escapes. Only the checks
      raise `ValueError`; the table's `ClientError` is raised exactly by the
      runs a refused call stops. */
  lemma ProcessRunShape(table: Table, k: TableKey, videoId: string, ownerUsername: string, faults: TableFaults,
                        unreachable: set<string>, objects: map<string, Blob>,
                        t: Transcription, rank: Ranker, llm: Llm, now: string)
    ensures var run := ProcessOutcome(table, k, videoId, ownerUsername, faults, unreachable, objects, t, rank, llm, now);
            run.statuses == [] || run.statuses == [Processing]
            || run.statuses == [Processing, Error] || run.statuses == [Processing, Completed]
    ensures var run := ProcessOutcome(table, k, videoId, ownerUsername, faults, unreachable, objects, t, rank, llm, now);
            run.result.Ok? <==> run.statuses == [Processing, Completed]
    ensures var run := ProcessOutcome(table, k, videoId, ownerUsername, faults, unreachable, objects, t, rank, llm, now);
            run.statuses == [] ==> run.table == table && run.objects == objects
    ensures var run := ProcessOutcome(table, k, videoId, ownerUsername, faults, unreachable, objects, t, rank, llm, now);
            run.result.Raised? && run.result.exc.ValueError? ==> run.statuses == []
    ensures var run := ProcessOutcome(table, k, videoId, ownerUsername, faults, unreachable, objects, t, rank, llm, now);
            run.statuses == [] && run.result.exc != KeyError && run.result.exc != Unavailable ==> run.result.exc.ValueError?
    ensures var run := ProcessOutcome(table, k, videoId, ownerUsername, faults, unreachable, objects, t, rank, llm, now);
            run.statuses == [Processing] ==> run.result == Raised(Unavailable) && (faults.error || faults.save || faults.completed)
    ensures var run := ProcessOutcome(table, k, videoId, ownerUsername, faults, unreachable, objects, t, rank, llm, now);
            run.statuses == [Processing, Error] ==> run.result.exc != Unavailable
    ensures var run := ProcessOutcome(table, k, videoId, ownerUsername, faults, unreachable, objects, t, rank, llm, now);
            run.statuses != [] <==> !faults.read && !faults.ownershipRead && !faults.processing
                                    && Owns(Lookup(table, k), ownerUsername) && TruthyAt(table[k], "s3_key")
                                    && "filename" in table[k] && Download(unreachable, objects, table[k]).Ok?
  {
    var run := ProcessOutcome(table, k, videoId, ownerUsername, faults, unreachable, objects, t, rank, llm, now);
    var record := Lookup(table, k);
    var e := Refusal(record, ownerUsername, faults, unreachable, objects);
    if e.None? && !faults.processing {
      var step := Attempted(record.value, videoId, unreachable, objects, t, rank, now);
      assert run == Finished(table, k, record.value, step.0, step.1, videoId, t, llm, faults);
      assert run.statuses == FinishedStatuses(step.0, faults) && run.result == FinishedResult(step.0, llm, faults);
      assert step.0.Raised? ==> step.0.exc in {KeyError, AccessDenied, AttributeError};
    } else {
      assert run == ProcessRun(Raised(if e.Some? then e.value else Unavailable), [], objects, table);
    }
  }

  /** A run that writes "error" keeps every field of the record and sets its
      status to "error", re-raising what the `try` block raised. */
  lemma FailedRunMarksError(table: Table, k: TableKey, videoId: string, ownerUsername: string, faults: TableFaults,
                            unreachable: set<string>, objects: map<string, Blob>,
                            t: Transcription, rank: Ranker, llm: Llm, now: string)
    requires ProcessOutcome(table, k, videoId, ownerUsername, faults, unreachable, objects, t, rank, llm, now).statuses
             == [Processing, Error]
    ensures var run := ProcessOutcome(table, k, videoId, ownerUsername, faults, unreachable, objects, t, rank, llm, now);
            k in table && run.table == table[k := table[k]["status" := S("error")]]
            && (run.result == Raised(KeyError) || run.result == Raised(AccessDenied) || run.result == Compressed(rank, t))
  {
    var run := ProcessOutcome(table, k, videoId, ownerUsername, faults, unreachable, objects, t, rank, llm, now);
    var record := Lookup(table, k);
    if Refusal(record, ownerUsername, faults, unreachable, objects).None? && !faults.processing {
      var step := Attempted(record.value, videoId, unreachable, objects, t, rank, now);
      assert run == Finished(table, k, record.value, step.0, step.1, videoId, t, llm, faults);
      assert step.0.Raised? && !faults.error;
      FinishedCases(table, k, record.value, step.0, step.1, videoId, t, llm, faults);
      assert run.table == table[k := Marked(record.value, Error)] && run.result == step.0;
    }
  }

  /** A run stopped by a refused write after "processing" raises the table's
      `ClientError` and leaves the record in "processing": with no other
      change when the refused call was the "error" write or
      `save_transcript_data`, with the transcript fields when it was the
      "completed" write. Nothing afterwards rewrites the status. */
  lemma RefusedWriteLeavesProcessing(table: Table, k: TableKey, videoId: string, ownerUsername: string, faults: TableFaults,
                                     unreachable: set<string>, objects: map<string, Blob>,
                                     t: Transcription, rank: Ranker, llm: Llm, now: string)
    requires ProcessOutcome(table, k, videoId, ownerUsername, faults, unreachable, objects, t, rank, llm, now).statuses
             == [Processing]
    ensures var run := ProcessOutcome(table, k, videoId, ownerUsername, faults, unreachable, objects, t, rank, llm, now);
            k in table && run.result == Raised(Unavailable)
            && k in run.table && Get(run.table[k], "status") == Some(S("processing"))
            && ("file_type" in table[k] ==> run.objects == Stored(objects, unreachable, Artifacts(videoId, t, now)))
            && (run.table == table[k := table[k]["status" := S("processing")]]
                || (!faults.save && faults.completed && Compressed(rank, t).Ok?
                    && var c := Compressed(rank, t).value;
                       run.table == table[k := SavedItem(table[k], videoId, t, c, GenerateSummary(Some(c), llm))]))
  {
    var record := Lookup(table, k);
    var run := ProcessOutcome(table, k, videoId, ownerUsername, faults, unreachable, objects, t, rank, llm, now);
    assert Refusal(record, ownerUsername, faults, unreachable, objects).None? && !faults.processing;
    var step := Attempted(record.value, videoId, unreachable, objects, t, rank, now);
    FinishedCases(table, k, record.value, step.0, step.1, videoId, t, llm, faults);
    if step.0.Ok? && !faults.save {
      var c := Compressed(rank, t).value;
      var summary := GenerateSummary(Some(c), llm);
      CompletedFieldsAvoid(videoId, t, c, summary);
      SavedStatus(table[k], FieldsMap(CompletedFields(videoId, t, c, summary)));
    }
  }

  /** Fields that do not name `status` keep the marked status. */
  lemma SavedStatus(info: Item, m: map<string, AttrValue>)
    requires "status" !in m
    ensures Get(Marked(info, Processing) + m, "status") == Some(S("processing"))
  {
  }

  /** When Whisper fails, the demo string is not a segment list: a run that
      gets past the checks ends in "error", or in "processing" when that
      write is refused. */
  lemma DemoTranscriptEndsInError(table: Table, k: TableKey, videoId: string, ownerUsername: string, faults: TableFaults,
                                  unreachable: set<string>, objects: map<string, Blob>,
                                  rank: Ranker, llm: Llm, now: string)
    requires ProcessOutcome(table, k, videoId, ownerUsername, faults, unreachable, objects, PlainText(DemoTranscript), rank, llm, now).statuses != []
    ensures var run := ProcessOutcome(table, k, videoId, ownerUsername, faults, unreachable, objects, PlainText(DemoTranscript), rank, llm, now);
            run.result.Raised?
            && (!faults.error ==> run.statuses == [Processing, Error] && run.result.exc in {KeyError, AccessDenied, AttributeError})
            && (faults.error ==> run.statuses == [Processing] && run.result.exc == Unavailable)
  {
    DemoTranscriptRaises(rank);
    var record := Lookup(table, k);
    var step := Attempted(record.value, videoId, unreachable, objects, PlainText(DemoTranscript), rank, now);
    FinishedCases(table, k, record.value, step.0, step.1, videoId, PlainText(DemoTranscript), llm, faults);
  }

  /** A stub record left by an upsert (only the key and one attribute) is
      refused with "Not allowed" once both reads go through, and nothing is
      written either way. */
  lemma StubRecordIsRefused(table: Table, k: TableKey, name: string, v: AttrValue, videoId: string,
                            ownerUsername: string, faults: TableFaults, unreachable: set<string>, objects: map<string, Blob>,
                            t: Transcription, rank: Ranker, llm: Llm, now: string)
    requires name != "owner_username"
    requires k in table && table[k] == KeyItem(k)[name := v]
    ensures var run := ProcessOutcome(table, k, videoId, ownerUsername, faults, unreachable, objects, t, rank, llm, now);
            run.result == (if faults.read || faults.ownershipRead then Raised(Unavailable) else Raised(NotAllowed))
            && run.statuses == [] && run.table == table
  {
    StubIsOwnedByNobody(k, name, v, ownerUsername);
  }

  /** A second status write replaces the first. */
  lemma StatusOverwritten(info: Item, first: AttrValue, last: AttrValue)
    ensures info["status" := first]["status" := last] == info["status" := last]
  {
  }

  /** The status write that ends a run replaces the one that began it. */
  lemma LaterStatusWins(info: Item, m: map<string, AttrValue>, first: AttrValue, last: AttrValue)
    ensures (info["status" := first] + m)["status" := last] == (info + m)["status" := last]
  {
  }

  /** The transcript fields with all three keys and no audio path, spelled out. */
  lemma TranscriptFieldsWithKeys(text: string, summary: string, sc: int, tc: int, tw: int, j: string, tk: string, m: string)
    requires j != "" && tk != "" && m != ""
    ensures TranscriptFields(text, summary, sc, tc, tw, Some(j), Some(tk), Some(m), None) ==
              [("transcript", S(text)), ("summary", S(summary)), ("segments_count", N(sc)),
               ("total_characters", N(tc)), ("total_words", N(tw)),
               ("transcript_s3_key", S(j)), ("transcript_text_s3_key", S(tk)), ("transcript_metadata_s3_key", S(m))]
  {
    assert OptionalField("transcript_s3_key", Some(j)) == [("transcript_s3_key", S(j))];
    assert OptionalField("transcript_text_s3_key", Some(tk)) == [("transcript_text_s3_key", S(tk))];
    assert OptionalField("transcript_metadata_s3_key", Some(m)) == [("transcript_metadata_s3_key", S(m))];
    assert OptionalField("audio_path", None) == [];
  }

  /** The fields written on success, spelled out. */
  lemma CompletedFieldsSpelled(videoId: string, t: Transcription, compressed: string, summary: string)
    ensures var d := TranscriptDataFor(videoId, t);
            CompletedFields(videoId, t, compressed, summary) ==
              [("transcript", S(compressed)), ("summary", S(summary)), ("segments_count", N(d.segmentsCount)),
               ("total_characters", N(d.totalCharacters)), ("total_words", N(d.totalWords)),
               ("transcript_s3_key", S(TranscriptJsonKey(videoId))), ("transcript_text_s3_key", S(TranscriptTextKey(videoId))),
               ("transcript_metadata_s3_key", S(TranscriptMetadataKey(videoId)))]
  {
    var d := TranscriptDataFor(videoId, t);
    assert |d.transcriptS3Key| > 0 && |d.textS3Key| > 0 && |d.metadataS3Key| > 0;
    TranscriptFieldsWithKeys(compressed, summary, d.segmentsCount, d.totalCharacters, d.totalWords,
                             d.transcriptS3Key, d.textS3Key, d.metadataS3Key);
  }

  /** The names of the written fields, in order. */
  const CompletedNames: seq<string> :=
    ["transcript", "summary", "segments_count", "total_characters", "total_words",
     "transcript_s3_key", "transcript_text_s3_key", "transcript_metadata_s3_key"]

  /** The written fields leave the status and the record's identity alone. */
  lemma CompletedFieldsAvoid(videoId: string, t: Transcription, compressed: string, summary: string)
    ensures var m := FieldsMap(CompletedFields(videoId, t, compressed, summary));
            "status" !in m && "s3_key" !in m && "owner_username" !in m
  {
    var d := TranscriptDataFor(videoId, t);
    CompletedFieldsSpelled(videoId, t, compressed, summary);
    NamesAvoid(CompletedFields(videoId, t, compressed, summary),
               S(compressed), S(summary), N(d.segmentsCount), N(d.totalCharacters), N(d.totalWords),
               S(TranscriptJsonKey(videoId)), S(TranscriptTextKey(videoId)), S(TranscriptMetadataKey(videoId)));
  }

  /** Fields with the written names avoid the three names. */
  lemma NamesAvoid(f: Fields, a: AttrValue, b: AttrValue, c: AttrValue, d: AttrValue, e: AttrValue,
                   g: AttrValue, h: AttrValue, k: AttrValue)
    requires f == [("transcript", a), ("summary", b), ("segments_count", c), ("total_characters", d),
                   ("total_words", e), ("transcript_s3_key", g), ("transcript_text_s3_key", h),
                   ("transcript_metadata_s3_key", k)]
    ensures "status" !in FieldsMap(f) && "s3_key" !in FieldsMap(f) && "owner_username" !in FieldsMap(f)
  {
    forall i | 0 <= i < |f|
      ensures f[i].0 != "status" && f[i].0 != "s3_key" && f[i].0 != "owner_username"
    {
      assert f[i].0 == CompletedNames[i];
      NotAmongCompletedNames(i);
    }
    FieldsMapAvoids(f, "status");
    FieldsMapAvoids(f, "s3_key");
    FieldsMapAvoids(f, "owner_username");
  }

  lemma NotAmongCompletedNames(i: nat)
    requires i < |CompletedNames|
    ensures |CompletedNames[i]| != 6 && (|CompletedNames[i]| != 14 || CompletedNames[i][0] == 's')
  {
  }

  /** The summary and the text key are written as given. */
  lemma CompletedFieldsValues(videoId: string, t: Transcription, compressed: string, summary: string)
    ensures var m := FieldsMap(CompletedFields(videoId, t, compressed, summary));
            "summary" in m && m["summary"] == S(summary)
            && "transcript_s3_key" in m && m["transcript_s3_key"] == S(TranscriptJsonKey(videoId))
            && "transcript_text_s3_key" in m && m["transcript_text_s3_key"] == S(TranscriptTextKey(videoId))
            && "transcript_metadata_s3_key" in m && m["transcript_metadata_s3_key"] == S(TranscriptMetadataKey(videoId))
  {
    var d := TranscriptDataFor(videoId, t);
    TranscriptFieldsShape(compressed, summary, d.segmentsCount, d.totalCharacters, d.totalWords,
                          Some(d.transcriptS3Key), Some(d.textS3Key), Some(d.metadataS3Key), None);
    CompletedFieldsSpelled(videoId, t, compressed, summary);
    ValuesRead(CompletedFields(videoId, t, compressed, summary),
               S(compressed), S(summary), N(d.segmentsCount), N(d.totalCharacters), N(d.totalWords),
               S(TranscriptJsonKey(videoId)), S(TranscriptTextKey(videoId)), S(TranscriptMetadataKey(videoId)));
  }

  /** Distinct fields with the written names read back their values. */
  lemma ValuesRead(f: Fields, a: AttrValue, b: AttrValue, c: AttrValue, d: AttrValue, e: AttrValue,
                   g: AttrValue, h: AttrValue, k: AttrValue)
    requires f == [("transcript", a), ("summary", b), ("segments_count", c), ("total_characters", d),
                   ("total_words", e), ("transcript_s3_key", g), ("transcript_text_s3_key", h),
                   ("transcript_metadata_s3_key", k)]
    requires DistinctKeys(f)
    ensures var m := FieldsMap(f);
            "summary" in m && m["summary"] == b && "transcript_s3_key" in m && m["transcript_s3_key"] == g
            && "transcript_text_s3_key" in m && m["transcript_text_s3_key"] == h
            && "transcript_metadata_s3_key" in m && m["transcript_metadata_s3_key"] == k
  {
    FieldsMapLookup(f, 1);
    FieldsMapLookup(f, 5);
    FieldsMapLookup(f, 6);
    FieldsMapLookup(f, 7);
  }

  /** The record a successful run leaves: status "completed", still owned by the
      caller, its summary, and the keys of all three artifacts. */
  lemma CompletedRecord(info: Item, videoId: string, t: Transcription, compressed: string, summary: string, ownerUsername: string)
    requires Get(info, "owner_username") == Some(S(ownerUsername))
    ensures var rec := CompletedItem(info, videoId, t, compressed, summary);
            Found(Some(rec)) && Get(rec, "status") == Some(S("completed"))
            && Owns(Some(rec), ownerUsername) && Get(rec, "summary") == Some(S(summary))
            && KeyAt(rec, "transcript_text_s3_key") == Some(TranscriptTextKey(videoId))
            && KeyAt(rec, "s3_key") == KeyAt(info, "s3_key")
            && {TranscriptJsonKey(videoId), TranscriptTextKey(videoId), TranscriptMetadataKey(videoId)} <= KeysNamed(rec, FileKeyAttrs)
  {
    var m := FieldsMap(CompletedFields(videoId, t, compressed, summary));
    CompletedFieldsValues(videoId, t, compressed, summary);
    CompletedFieldsAvoid(videoId, t, compressed, summary);
    RecordAfterSuccess(info, m, summary, TranscriptJsonKey(videoId), TranscriptTextKey(videoId), TranscriptMetadataKey(videoId),
                       ownerUsername);
  }

  lemma RecordAfterSuccess(info: Item, m: map<string, AttrValue>, summary: string, j: string, tk: string, mk: string,
                           ownerUsername: string)
    requires Get(info, "owner_username") == Some(S(ownerUsername))
    requires "owner_username" !in m && "s3_key" !in m
    requires "summary" in m && m["summary"] == S(summary)
    requires j != "" && tk != "" && mk != ""
    requires "transcript_s3_key" in m && m["transcript_s3_key"] == S(j)
    requires "transcript_text_s3_key" in m && m["transcript_text_s3_key"] == S(tk)
    requires "transcript_metadata_s3_key" in m && m["transcript_metadata_s3_key"] == S(mk)
    ensures var rec := (info + m)["status" := S(StatusName(Completed))];
            Found(Some(rec)) && Get(rec, "status") == Some(S("completed"))
            && Owns(Some(rec), ownerUsername) && Get(rec, "summary") == Some(S(summary))
            && KeyAt(rec, "transcript_text_s3_key") == Some(tk)
            && KeyAt(rec, "s3_key") == KeyAt(info, "s3_key")
            && {j, tk, mk} <= KeysNamed(rec, FileKeyAttrs)
  {
    var rec := (info + m)["status" := S(StatusName(Completed))];
    assert "status" in rec;
    assert rec["owner_username"] == info["owner_username"];
    var a1, a2, a3 := FileKeyAttrs[1], FileKeyAttrs[2], FileKeyAttrs[3];
    assert a1 == "transcript_s3_key" && a2 == "transcript_text_s3_key" && a3 == "transcript_metadata_s3_key";
    assert a1 in FileKeyAttrs && a2 in FileKeyAttrs && a3 in FileKeyAttrs;
    assert KeyAt(rec, a1) == Some(j) && KeyAt(rec, a2) == Some(tk) && KeyAt(rec, a3) == Some(mk);
  }

  /** What a successful run consists of. */
  lemma SuccessfulRun(table: Table, k: TableKey, videoId: string, ownerUsername: string, faults: TableFaults,
                      unreachable: set<string>, objects: map<string, Blob>,
                      t: Transcription, rank: Ranker, llm: Llm, now: string)
    requires ProcessOutcome(table, k, videoId, ownerUsername, faults, unreachable, objects, t, rank, llm, now).result.Ok?
    ensures var run := ProcessOutcome(table, k, videoId, ownerUsername, faults, unreachable, objects, t, rank, llm, now);
            k in table && Owns(Some(table[k]), ownerUsername)
            && !faults.read && !faults.ownershipRead && !faults.processing && !faults.save && !faults.completed
            && SaveOutcome(unreachable, Artifacts(videoId, t, now)).Ok? && Compressed(rank, t).Ok?
            && var c := Compressed(rank, t).value;
               var summary := GenerateSummary(Some(c), llm);
               run.result == Ok(summary)
               && run.objects == Stored(objects, unreachable, Artifacts(videoId, t, now))
               && run.table == table[k := CompletedItem(table[k], videoId, t, c, summary)]
  {
    ProcessOutcomeOfAttempt(table, k, videoId, ownerUsername, faults, unreachable, objects, t, rank, llm, now);
    var step := Attempted(table[k], videoId, unreachable, objects, t, rank, now);
    FinishedCases(table, k, table[k], step.0, step.1, videoId, t, llm, faults);
  }

  /** A run past the checks is the end `Finished` gives to the attempt. */
  lemma ProcessOutcomeOfAttempt(table: Table, k: TableKey, videoId: string, ownerUsername: string, faults: TableFaults,
                                unreachable: set<string>, objects: map<string, Blob>,
                                t: Transcription, rank: Ranker, llm: Llm, now: string)
    requires ProcessOutcome(table, k, videoId, ownerUsername, faults, unreachable, objects, t, rank, llm, now).result.Ok?
    ensures k in table && Owns(Some(table[k]), ownerUsername)
    ensures !faults.read && !faults.ownershipRead && !faults.processing && !faults.save && !faults.completed
    ensures var step := Attempted(table[k], videoId, unreachable, objects, t, rank, now);
            ProcessOutcome(table, k, videoId, ownerUsername, faults, unreachable, objects, t, rank, llm, now)
            == Finished(table, k, table[k], step.0, step.1, videoId, t, llm, faults)
            && step.0.Ok?
  {
    var record := Lookup(table, k);
    assert Refusal(record, ownerUsername, faults, unreachable, objects).None? && !faults.processing;
    assert record == Some(table[k]);
  }

  /** After a successful run, reading the record back (as `get_transcript` and
      `get_summary` do) yields the full transcript and the returned summary,
      and the record names all three artifacts for a later deletion. */
  lemma CompletedRunServesResults(table: Table, k: TableKey, videoId: string, ownerUsername: string, faults: TableFaults,
                                  unreachable: set<string>, objects: map<string, Blob>,
                                  t: Transcription, rank: Ranker, llm: Llm, now: string)
    requires ProcessOutcome(table, k, videoId, ownerUsername, faults, unreachable, objects, t, rank, llm, now).result.Ok?
    ensures var run := ProcessOutcome(table, k, videoId, ownerUsername, faults, unreachable, objects, t, rank, llm, now);
            k in run.table
            && TranscriptOf(Some(run.table[k]), ownerUsername, unreachable, run.objects) == Some(FullTranscript(t))
            && SummaryOf(Some(run.table[k]), ownerUsername) == Some(S(run.result.value))
            && {TranscriptJsonKey(videoId), TranscriptTextKey(videoId), TranscriptMetadataKey(videoId)} <= KeysNamed(run.table[k], FileKeyAttrs)
  {
    var run := ProcessOutcome(table, k, videoId, ownerUsername, faults, unreachable, objects, t, rank, llm, now);
    SuccessfulRun(table, k, videoId, ownerUsername, faults, unreachable, objects, t, rank, llm, now);
    var c := Compressed(rank, t).value;
    var summary := GenerateSummary(Some(c), llm);
    CompletedRecord(table[k], videoId, t, c, summary, ownerUsername);
    SavedArtifactsReadBack(objects, unreachable, videoId, t, now);
    ServedRecord(run.table[k], ownerUsername, unreachable, run.objects, TranscriptTextKey(videoId), FullTranscript(t));
  }

  /** A completed, owned record whose text key reads back as a text object
      serves that text. */
  lemma ServedRecord(rec: Item, ownerUsername: string, unreachable: set<string>, objects: map<string, Blob>,
                     key: string, text: string)
    requires Owns(Some(rec), ownerUsername) && Get(rec, "status") == Some(S("completed"))
    requires KeyAt(rec, "transcript_text_s3_key") == Some(key)
    requires ReadObject(unreachable, objects, key) == Ok(PlainTextFile(text))
    ensures TranscriptOf(Some(rec), ownerUsername, unreachable, objects) == Some(text)
    ensures SummaryOf(Some(rec), ownerUsername) == Get(rec, "summary")
  {
  }

  // ---------------------------------------------------------------------------
  // Reads

  /** What the cache answers for `key` when the client is up and the server
      serves the call: the stored value unless it is falsy. */
  function CachedInfo(connected: bool, next: CacheCall, entries: map<string, CacheEntry>, key: string): (r: Option<Item>)
    ensures r.Some? ==> key in entries && r.value == entries[key].data && r.value != map[]
    ensures r.None? <==> !connected || next.Fails? || key !in entries || entries[key].data == map[]
  {
    if connected && next.Served? && key in entries && entries[key].data != map[] then Some(entries[key].data) else None
  }

  /** What `get_video_info` answers: a cache hit as stored; otherwise the
      table's answer to `get`, or its `ClientError` when that read is
      refused. */
  function InfoRead(cached: Option<Item>, readFails: bool, stored: Option<Item>): (r: Result<Option<Item>>)
    ensures r.Raised? <==> cached.None? && readFails
    ensures r.Raised? ==> r.exc == Unavailable
    ensures r.Ok? ==> r.value == cached || (cached.None? && r.value == stored)
  {
    if cached.Some? then Ok(cached) else if readFails then Raised(Unavailable) else Ok(stored)
  }

  /** `get_transcript` on the record `get_video_info` returned. */
  function TranscriptOf(info: Option<Item>, ownerUsername: string, unreachable: set<string>,
                        objects: map<string, Blob>): (r: Option<string>)
    ensures r.Some? ==> Owns(info, ownerUsername) && Get(info.value, "status") == Some(S("completed"))
    ensures r.Some? ==> var key := KeyAt(info.value, "transcript_text_s3_key");
                        key.Some? && ReadObject(unreachable, objects, key.value) == Ok(PlainTextFile(r.value))
  {
    if !Found(info) || Get(info.value, "status") != Some(S("completed")) then None
    else if Get(info.value, "owner_username") != Some(S(ownerUsername)) then None
    else match KeyAt(info.value, "transcript_text_s3_key")
      case None => None
      case Some(key) =>
        match ReadObject(unreachable, objects, key)
        case Ok(PlainTextFile(text)) => Some(text)
        case _ => None
  }

  /** `get_summary` on the record `get_video_info` returned. */
  function SummaryOf(info: Option<Item>, ownerUsername: string): (r: Option<AttrValue>)
    ensures r.Some? ==> Owns(info, ownerUsername) && Get(info.value, "status") == Some(S("completed"))
                        && r == Get(info.value, "summary")
  {
    if Found(info) && Get(info.value, "status") == Some(S("completed")) && Get(info.value, "owner_username") == Some(S(ownerUsername))
    then Get(info.value, "summary")
    else None
  }

  /** Invalidating one key any number of times either leaves the cache or drops
      exactly that key. */
  predicate KeptOrDropped(before: map<string, CacheEntry>, after: map<string, CacheEntry>, key: string)
  {
    after == before || after == before - {key}
  }

  /** Writing `x` and then the rest of a run is writing the whole run. */
  lemma AppendAfterFirst<T>(w: seq<T>, x: T, run: seq<T>, rest: seq<T>)
    requires run == [x] + rest
    ensures w + [x] + rest == w + run
  {
  }

  /** Two invalidations of one key, each keeping or dropping it, amount to
      one. */
  lemma KeptOrDroppedTwice(a: map<string, CacheEntry>, b: map<string, CacheEntry>, c: map<string, CacheEntry>, key: string)
    requires KeptOrDropped(a, b, key) && KeptOrDropped(b, c, key)
    ensures KeptOrDropped(a, c, key)
    ensures b == a - {key} && c == b - {key} ==> c == a - {key}
  {
    Removed(a, key);
  }

  /** Writing a key twice keeps only the second value. */
  lemma Overwritten<K, V>(m: map<K, V>, k: K, a: V, b: V)
    ensures m[k := a][k := b] == m[k := b]
  {
  }

  /** Writing a key's own value back changes nothing. */
  lemma Unchanged<K, V>(m: map<K, V>, k: K)
    requires k in m
    ensures m[k := m[k]] == m
  {
  }

  /** Removing a key twice removes it once. */
  lemma Removed<K, V>(m: map<K, V>, k: K)
    ensures m - {k} - {k} == m - {k}
  {
  }

  lemma MapMinusTwice(m: map<string, Blob>, a: set<string>, b: set<string>)
    ensures m - a - b == m - (a + b)
  {
  }

  /** The transcript fields, from the data `_save_transcript` returned. */
  lemma CompletedFieldsOfData(videoId: string, t: Transcription, compressed: string, summary: string, data: TranscriptData)
    requires data == TranscriptDataFor(videoId, t)
    ensures CompletedFields(videoId, t, compressed, summary)
            == TranscriptFields(compressed, summary, data.segmentsCount, data.totalCharacters, data.totalWords,
                                Some(data.transcriptS3Key), Some(data.textS3Key), Some(data.metadataS3Key), None)
  {
  }

  /** Writing "completed" over the saved record gives the completed one. */
  lemma CompletedOverSaved(t0: Table, k: TableKey, info: Item, videoId: string, t: Transcription, compressed: string,
                           summary: string, saved: Table)
    requires saved == t0[k := SavedItem(info, videoId, t, compressed, summary)]
    ensures k in saved
    ensures saved[k := saved[k]["status" := S(StatusName(Completed))]]
            == t0[k := CompletedItem(info, videoId, t, compressed, summary)]
  {
    LaterStatusOverSaved(t0, k, info, FieldsMap(CompletedFields(videoId, t, compressed, summary)),
                         S(StatusName(Processing)), S(StatusName(Completed)), saved);
  }

  /** Saving fields `m` over a record whose status was set to `first`, then
      writing `last`, leaves the record with `m` and the status `last`. */
  lemma LaterStatusOverSaved(t0: Table, k: TableKey, info: Item, m: map<string, AttrValue>,
                             first: AttrValue, last: AttrValue, saved: Table)
    requires saved == t0[k := info["status" := first] + m]
    ensures k in saved && saved[k := saved[k]["status" := last]] == t0[k := (info + m)["status" := last]]
  {
    LaterStatusWins(info, m, first, last);
  }

  /** One best-effort delete: the objects removed so far, plus the named key
      unless it is unreachable. */
  lemma KeysNamedPrefixStep(info: Item, attrs: seq<string>, i: nat)
    requires i < |attrs|
    ensures KeysNamed(info, attrs[..i + 1]) ==
            KeysNamed(info, attrs[..i]) + (if KeyAt(info, attrs[i]).Some? then {KeyAt(info, attrs[i]).value} else {})
  {
    assert attrs[..i + 1] == attrs[..i] + [attrs[i]];
    KeysNamedStep(info, attrs[..i], attrs[i]);
  }

  lemma DeletedStep(o0: map<string, Blob>, before: map<string, Blob>,
                    after: map<string, Blob>, named: set<string>, key: Option<string>, unreachable: set<string>)
    requires before == o0 - (named - unreachable)
    requires key.None? ==> after == before
    requires key.Some? && key.value in unreachable ==> after == before
    requires key.Some? && key.value !in unreachable ==> after == before - {key.value}
    ensures after == o0 - ((named + (if key.Some? then {key.value} else {})) - unreachable)
  {
  }

  // ---------------------------------------------------------------------------
  // The service

  class VideoService {
    const repo: VideoRepository
    const blobs: BlobStore
    const cache: CacheService
    const compressor: TextCompressor
    /** `settings.S3_BUCKET` */
    const s3Bucket: string
    /** Every status this service has written, in order. */
    ghost var statusWrites: seq<Status>

    constructor(repo: VideoRepository, blobs: BlobStore, cache: CacheService,
                compressor: TextCompressor, s3Bucket: string)
      ensures this.repo == repo && this.blobs == blobs && this.cache == cache
      ensures this.compressor == compressor && this.s3Bucket == s3Bucket && statusWrites == []
    {
      this.repo := repo;
      this.blobs := blobs;
      this.cache := cache;
      this.compressor := compressor;
      this.s3Bucket := s3Bucket;
      statusWrites := [];
    }

    /** `if cache_service.is_available(): cache_service.invalidate_video_info(...)` */
    method InvalidateIfAvailable(videoId: string, ownerUsername: string)
      modifies cache
      ensures cache.connected == old(cache.connected)
      ensures KeptOrDropped(old(cache.entries), cache.entries, VideoInfoKey(videoId, ownerUsername))
      ensures !old(cache.connected) ==> cache.entries == old(cache.entries) && cache.script == old(cache.script)
      ensures old(cache.connected) && old(cache.script) == [] ==>
                cache.entries == old(cache.entries) - {VideoInfoKey(videoId, ownerUsername)} && cache.script == []
    {
      if cache.IsAvailable() {
        var _ := cache.InvalidateVideoInfo(videoId, ownerUsername);
      }
    }

    /** `update_fields(video_id, {"status": ...})` followed by the
        invalidation. A refused write raises its `ClientError` before the
        invalidation, and nothing changes. */
    method WriteStatus(videoId: string, ownerUsername: string, st: Status, fails: bool) returns (r: Result<()>)
      modifies repo.ddb, cache, this
      ensures r == if fails then Raised(Unavailable) else Ok(())
      ensures fails ==> repo.ddb.table == old(repo.ddb.table) && statusWrites == old(statusWrites)
                        && cache.entries == old(cache.entries) && cache.script == old(cache.script)
      ensures var k := repo.ddb.KeyFor(videoId, ownerUsername);
              var base := if k in old(repo.ddb.table) then old(repo.ddb.table)[k] else KeyItem(k);
              !fails ==> repo.ddb.table == old(repo.ddb.table)[k := base["status" := S(StatusName(st))]]
                         && statusWrites == old(statusWrites) + [st]
      ensures cache.connected == old(cache.connected)
      ensures KeptOrDropped(old(cache.entries), cache.entries, VideoInfoKey(videoId, ownerUsername))
      ensures !fails && old(cache.connected) && old(cache.script) == [] ==>
                cache.entries == old(cache.entries) - {VideoInfoKey(videoId, ownerUsername)} && cache.script == []
    {
      StatusWriteEffect(repo.ddb.table, repo.ddb.KeyFor(videoId, ownerUsername), st);
      var updated := repo.UpdateFields(videoId, StatusFields(st), ownerUsername, fails);
      if updated.Raised? {
        return Raised(updated.exc);
      }
      statusWrites := statusWrites + [st];
      InvalidateIfAvailable(videoId, ownerUsername);
      r := Ok(());
    }

    /** `save_video_metadata`: records the upload as "uploaded", typed by its
        extension, and drops any cached copy; a refused put raises its
        `ClientError` before the invalidation. */
    method SaveVideoMetadata(fileId: string, filename: string, s3Key: string, ownerUsername: string, now: string,
                             fails: bool)
      returns (r: Result<string>)
      modifies repo.ddb, cache
      ensures r == if fails then Raised(Unavailable) else Ok(fileId)
      ensures fails ==> repo.ddb.table == old(repo.ddb.table) && cache.entries == old(cache.entries)
      ensures !fails ==> repo.ddb.table == old(repo.ddb.table)[repo.ddb.KeyFor(fileId, ownerUsername) :=
                MetadataItem(repo.ddb.qutUsername, fileId, filename, s3Key, s3Bucket, FileType(filename), ownerUsername,
                             None, StatusName(Uploaded), now)]
      ensures cache.connected == old(cache.connected)
      ensures KeptOrDropped(old(cache.entries), cache.entries, VideoInfoKey(fileId, ownerUsername))
      ensures !fails && old(cache.connected) && old(cache.script) == [] ==>
                cache.entries == old(cache.entries) - {VideoInfoKey(fileId, ownerUsername)}
    {
      var fileType := FileType(filename);
      var saved := repo.SaveMetadata(fileId, filename, s3Key, s3Bucket, fileType, ownerUsername, None, StatusName(Uploaded),
                                     now, fails);
      if saved.Raised? {
        return Raised(saved.exc);
      }
      InvalidateIfAvailable(fileId, ownerUsername);
      r := Ok(fileId);
    }

    /** `get_video_info`: a cache hit is returned as stored, without reading the
        table; otherwise the stored record, which is cached when truthy and the
        client is still up. A refused read raises its `ClientError`. */
    method GetVideoInfo(videoId: string, ownerUsername: string, readFails: bool) returns (r: Result<Option<Item>>)
      modifies cache
      ensures var key := VideoInfoKey(videoId, ownerUsername);
              var cached := CachedInfo(old(cache.connected), old(cache.NextCall()), old(cache.entries), key);
              r == InfoRead(cached, readFails, Lookup(repo.ddb.table, repo.ddb.KeyFor(videoId, ownerUsername)))
      ensures var key := VideoInfoKey(videoId, ownerUsername);
              cache.entries == old(cache.entries)
              || (r.Ok? && Found(r.value) && cache.entries == old(cache.entries)[key := CacheEntry(r.value.value, cache.defaultTtl)])
      ensures var key := VideoInfoKey(videoId, ownerUsername);
              var cached := CachedInfo(old(cache.connected), old(cache.NextCall()), old(cache.entries), key);
              old(cache.connected) && old(cache.script) == [] && cached.None? && r.Ok? && Found(r.value) ==>
                cache.connected && cache.entries == old(cache.entries)[key := CacheEntry(r.value.value, cache.defaultTtl)]
      ensures !old(cache.connected) ==> !cache.connected && cache.entries == old(cache.entries) && cache.script == old(cache.script)
    {
      var key := VideoInfoKey(videoId, ownerUsername);
      if cache.IsAvailable() {
        var cached := cache.Get(key);
        if cached.Some? {
          return Ok(cached);
        }
      }
      r := repo.Get(videoId, ownerUsername, readFails);
      if r.Raised? {
        return;
      }
      if r.value.Some? && r.value.value != map[] && cache.IsAvailable() {
        var _ := cache.Set(key, r.value.value, None);
      }
    }

    /** `get_all_videos`: the projected first page of the owner's records. */
    method GetAllVideos(ownerUsername: string, service: QueryRequest -> QueryResponse) returns (r: seq<ListedVideo>)
      ensures r == ProjectAll(service(QueryRequestFor(repo.ddb.qutUsername, ownerUsername, DefaultListLimit, None)).items)
    {
      var listing := repo.ListByOwner(ownerUsername, DefaultListLimit, None, service);
      r := listing.items;
    }

    /** `_assert_ownership`: its own read of the record, whose refusal is
        re-raised. */
    method AssertOwnership(videoId: string, ownerUsername: string, fails: bool) returns (r: Result<bool>)
      ensures r == if fails then Raised(Unavailable)
                   else Ok(Owns(Lookup(repo.ddb.table, repo.ddb.KeyFor(videoId, ownerUsername)), ownerUsername))
    {
      var info := repo.Get(videoId, ownerUsername, fails);
      if info.Raised? {
        return Raised(info.exc);
      }
      if info.value.None? || info.value.value == map[] {
        return Ok(false);
      }
      r := Ok(Get(info.value.value, "owner_username") == Some(S(ownerUsername)));
    }

    /** `delete_video`: for an owned record, best-effort deletion of every object
        it names, then of the record, then of the cached copy. A refused read
        raises before anything is deleted; a refused `delete_item` raises
        after the objects are gone, leaving the record and the cache. */
    method DeleteVideo(videoId: string, ownerUsername: string, readFails: bool, deleteFails: bool)
      returns (r: Result<bool>)
      modifies repo.ddb, blobs, cache
      ensures var owns := Owns(Lookup(old(repo.ddb.table), repo.ddb.KeyFor(videoId, ownerUsername)), ownerUsername);
              r == if readFails then Raised(Unavailable) else if !owns then Ok(false)
                   else if deleteFails then Raised(Unavailable) else Ok(true)
      ensures r != Ok(true) ==> repo.ddb.table == old(repo.ddb.table)
                                && cache.entries == old(cache.entries) && cache.script == old(cache.script)
      ensures r == Ok(true) ==> repo.ddb.table == DeleteKey(old(repo.ddb.table), repo.ddb.KeyFor(videoId, ownerUsername))
      ensures var k := repo.ddb.KeyFor(videoId, ownerUsername);
              var owns := Owns(Lookup(old(repo.ddb.table), k), ownerUsername);
              (readFails || !owns ==> blobs.objects == old(blobs.objects))
              && (!readFails && owns ==>
                    blobs.objects == old(blobs.objects) - (KeysNamed(old(repo.ddb.table)[k], FileKeyAttrs) - blobs.unreachable))
      ensures cache.connected == old(cache.connected)
      ensures KeptOrDropped(old(cache.entries), cache.entries, VideoInfoKey(videoId, ownerUsername))
      ensures r == Ok(true) && old(cache.connected) && old(cache.script) == [] ==>
                cache.entries == old(cache.entries) - {VideoInfoKey(videoId, ownerUsername)}
    {
      var info := repo.Get(videoId, ownerUsername, readFails);
      if info.Raised? {
        return Raised(info.exc);
      }
      if info.value.None? || info.value.value == map[] {
        return Ok(false);
      }
      if Get(info.value.value, "owner_username") != Some(S(ownerUsername)) {
        return Ok(false);
      }
      DeleteObjectsOf(info.value.value);
      var deleted := repo.Delete(videoId, ownerUsername, deleteFails);
      if deleted.Raised? {
        return Raised(deleted.exc);
      }
      InvalidateIfAvailable(videoId, ownerUsername);
      r := Ok(true);
    }

    /** The best-effort deletions of `delete_video`: the upload, then each
        transcript artifact the record names; a refused deletion is skipped. */
    method DeleteObjectsOf(record: Item)
      modifies blobs
      ensures blobs.objects == old(blobs.objects) - (KeysNamed(record, FileKeyAttrs) - blobs.unreachable)
    {
      ghost var o0 := blobs.objects;
      var s3Key := KeyAt(record, "s3_key");
      if s3Key.Some? {
        var _ := blobs.DeleteObject(s3Key.value);
      }
      KeysNamedStep(record, [], "s3_key");
      assert FileKeyAttrs[..1] == [] + ["s3_key"];
      DeletedStep(o0, o0, blobs.objects, {}, s3Key, blobs.unreachable);
      var i := 1;
      while i < |FileKeyAttrs|
        invariant 1 <= i <= |FileKeyAttrs|
        invariant blobs.objects == o0 - (KeysNamed(record, FileKeyAttrs[..i]) - blobs.unreachable)
      {
        ghost var before := blobs.objects;
        var tk := KeyAt(record, FileKeyAttrs[i]);
        if tk.Some? {
          var _ := blobs.DeleteObject(tk.value);
        }
        KeysNamedPrefixStep(record, FileKeyAttrs, i);
        DeletedStep(o0, before, blobs.objects, KeysNamed(record, FileKeyAttrs[..i]), tk, blobs.unreachable);
        i := i + 1;
      }
      assert FileKeyAttrs[..|FileKeyAttrs|] == FileKeyAttrs;
    }

    /** `_extract_full_transcript` */
    method ExtractFullTranscript(t: Transcription) returns (r: string)
      ensures r == FullTranscript(t)
    {
      if t.PlainText? {
        return t.text;
      }
      var parts := CollectSegmentTexts(t.segments);
      r := Join(" ", parts);
    }

    /** `_save_transcript`: three puts in order; the first refused one raises and
        leaves the earlier ones in place. */
    method SaveTranscript(videoId: string, t: Transcription, now: string) returns (r: Result<TranscriptData>)
      modifies blobs
      ensures blobs.objects == Stored(old(blobs.objects), blobs.unreachable, Artifacts(videoId, t, now))
      ensures r == if SaveOutcome(blobs.unreachable, Artifacts(videoId, t, now)).Ok? then Ok(TranscriptDataFor(videoId, t))
                   else Raised(AccessDenied)
    {
      var fullText := ExtractFullTranscript(t);
      var jsonKey := TranscriptJsonKey(videoId);
      var textKey := TranscriptTextKey(videoId);
      var metadataKey := TranscriptMetadataKey(videoId);
      var metadata := TranscriptMetadata(videoId, now, SegmentsCount(t), |fullText|, |Words(fullText)|, jsonKey, textKey);
      ghost var w := [(jsonKey, SegmentsJson(t)), (textKey, PlainTextFile(fullText)), (metadataKey, MetadataJson(metadata))];
      ArtifactsSpelled(videoId, t, now, fullText, metadata);
      StoredThree(blobs.objects, blobs.unreachable, w);
      SaveOutcomeThree(blobs.unreachable, w[0], w[1], w[2]);
      var put := blobs.PutObject(jsonKey, SegmentsJson(t));
      if put.Raised? {
        return Raised(put.exc);
      }
      put := blobs.PutObject(textKey, PlainTextFile(fullText));
      if put.Raised? {
        return Raised(put.exc);
      }
      put := blobs.PutObject(metadataKey, MetadataJson(metadata));
      if put.Raised? {
        return Raised(put.exc);
      }
      r := Ok(TranscriptData(jsonKey, textKey, metadataKey, SegmentsCount(t), |fullText|, |Words(fullText)|, fullText));
    }

    /** `process_video`. `t` is what transcription returns, `llm` the
        summarising model and `faults` the table calls the service refuses. */
    method ProcessVideo(videoId: string, ownerUsername: string, t: Transcription, llm: Llm, now: string,
                        faults: TableFaults)
      returns (r: Result<string>)
      requires compressor.Valid()
      modifies repo.ddb, blobs, cache, compressor, this
      ensures compressor.Valid()
      ensures var run := ProcessOutcome(old(repo.ddb.table), repo.ddb.KeyFor(videoId, ownerUsername), videoId, ownerUsername,
                                        faults, blobs.unreachable, old(blobs.objects), t, compressor.rank, llm, now);
              r == run.result && statusWrites == old(statusWrites) + run.statuses
              && repo.ddb.table == run.table && blobs.objects == run.objects
      ensures cache.connected == old(cache.connected)
      ensures KeptOrDropped(old(cache.entries), cache.entries, VideoInfoKey(videoId, ownerUsername))
      ensures old(cache.connected) && old(cache.script) == [] && statusWrites != old(statusWrites) ==>
                cache.entries == old(cache.entries) - {VideoInfoKey(videoId, ownerUsername)}
    {
      var current := repo.Get(videoId, ownerUsername, faults.read);
      if current.Raised? {
        return Raised(current.exc);
      }
      if current.value.None? || current.value.value == map[] {
        return Raised(FileNotFound);
      }
      var owns := AssertOwnership(videoId, ownerUsername, faults.ownershipRead);
      if owns.Raised? {
        return Raised(owns.exc);
      }
      if !owns.value {
        return Raised(NotAllowed);
      }
      var info := current.value.value;
      if !TruthyAt(info, "s3_key") {
        return Raised(NoS3Key);
      }
      if "filename" !in info {
        return Raised(KeyError);
      }
      var download: Result<Blob>;
      var s3Key := KeyAt(info, "s3_key");
      if s3Key.None? {
        download := Raised(ParamValidation);
      } else {
        download := blobs.GetObject(s3Key.value);
      }
      if download.Raised? {
        return Raised(DownloadFailure(download.exc));
      }
      assert Refusal(current.value, ownerUsername, faults, blobs.unreachable, blobs.objects).None?;
      r := ProcessDownloaded(videoId, ownerUsername, info, t, llm, now, faults);
    }

    /** The part of `process_video` after the download, from the status
        "processing" on. */
    method ProcessDownloaded(videoId: string, ownerUsername: string, info: Item, t: Transcription, llm: Llm, now: string,
                             faults: TableFaults)
      returns (r: Result<string>)
      requires compressor.Valid()
      requires repo.ddb.KeyFor(videoId, ownerUsername) in repo.ddb.table
      requires repo.ddb.table[repo.ddb.KeyFor(videoId, ownerUsername)] == info
      modifies repo.ddb, blobs, cache, compressor, this
      ensures compressor.Valid()
      ensures faults.processing ==> r == Raised(Unavailable) && statusWrites == old(statusWrites)
                                    && repo.ddb.table == old(repo.ddb.table) && blobs.objects == old(blobs.objects)
      ensures var step := Attempted(info, videoId, blobs.unreachable, old(blobs.objects), t, compressor.rank, now);
              var run := Finished(old(repo.ddb.table), repo.ddb.KeyFor(videoId, ownerUsername), info, step.0, step.1,
                                  videoId, t, llm, faults);
              !faults.processing ==>
                r == run.result && statusWrites == old(statusWrites) + run.statuses
                && repo.ddb.table == run.table && blobs.objects == run.objects
      ensures cache.connected == old(cache.connected)
      ensures KeptOrDropped(old(cache.entries), cache.entries, VideoInfoKey(videoId, ownerUsername))
      ensures !faults.processing && old(cache.connected) && old(cache.script) == [] ==>
                cache.entries == old(cache.entries) - {VideoInfoKey(videoId, ownerUsername)}
    {
      ghost var k := repo.ddb.KeyFor(videoId, ownerUsername);
      ghost var t0 := repo.ddb.table;
      ghost var e0 := cache.entries;
      ghost var w0 := statusWrites;
      ghost var step := Attempted(info, videoId, blobs.unreachable, blobs.objects, t, compressor.rank, now);
      ghost var run := Finished(t0, k, info, step.0, step.1, videoId, t, llm, faults);
      var claimed := WriteStatus(videoId, ownerUsername, Processing, faults.processing);
      if claimed.Raised? {
        return Raised(claimed.exc);
      }
      ghost var t1 := repo.ddb.table;
      ghost var e1 := cache.entries;
      ghost var w1 := statusWrites;
      assert t1 == t0[k := Marked(info, Processing)];
      ghost var run' := Finished(t1, k, info, step.0, step.1, videoId, t, llm, faults);
      FinishedOverProcessing(t0, k, info, step.0, step.1, videoId, t, llm, faults);
      var attempted, data := Attempt(videoId, info, t, now);
      assert attempted == step.0;
      r := Conclude(videoId, ownerUsername, info, t, attempted, data, llm, faults);
      assert r == run'.result && statusWrites == w1 + LaterStatuses(step.0, faults);
      LaterAfterProcessing(step.0, faults);
      AppendAfterFirst(w0, Processing, run.statuses, run'.statuses[1..]);
      KeptOrDroppedTwice(e0, e1, cache.entries, VideoInfoKey(videoId, ownerUsername));
    }

    /** After the `try` block's steps: the `except` branch's write on a raised
        step, else the summary and the writes after the `try` block. */
    method Conclude(videoId: string, ownerUsername: string, info: Item, t: Transcription, step: Result<string>,
                    data: TranscriptData, llm: Llm, faults: TableFaults)
      returns (r: Result<string>)
      requires data == TranscriptDataFor(videoId, t)
      requires repo.ddb.KeyFor(videoId, ownerUsername) in repo.ddb.table
      requires repo.ddb.table[repo.ddb.KeyFor(videoId, ownerUsername)] == Marked(info, Processing)
      modifies repo.ddb, cache, this
      ensures r == FinishedResult(step, llm, faults)
      ensures statusWrites == old(statusWrites) + LaterStatuses(step, faults)
      ensures repo.ddb.table == old(repo.ddb.table)[repo.ddb.KeyFor(videoId, ownerUsername) :=
                FinalItem(info, step, videoId, t, llm, faults)]
      ensures cache.connected == old(cache.connected)
      ensures KeptOrDropped(old(cache.entries), cache.entries, VideoInfoKey(videoId, ownerUsername))
    {
      if step.Ok? {
        r := Complete(videoId, ownerUsername, info, t, step.value, llm, data, faults);
        return;
      }
      ghost var t0 := repo.ddb.table;
      ghost var k := repo.ddb.KeyFor(videoId, ownerUsername);
      var marked := Fail(videoId, ownerUsername, info, faults.error);
      Unchanged(t0, k);
      if marked.Raised? {
        r := Raised(marked.exc);
      } else {
        r := step;
      }
    }

    /** The `except` branch's write: the status "error" over the record marked
        "processing"; a refused write changes nothing and raises. */
    method Fail(videoId: string, ownerUsername: string, info: Item, fails: bool) returns (r: Result<()>)
      requires repo.ddb.KeyFor(videoId, ownerUsername) in repo.ddb.table
      requires repo.ddb.table[repo.ddb.KeyFor(videoId, ownerUsername)] == Marked(info, Processing)
      modifies repo.ddb, cache, this
      ensures r == if fails then Raised(Unavailable) else Ok(())
      ensures fails ==> repo.ddb.table == old(repo.ddb.table) && statusWrites == old(statusWrites)
                        && cache.entries == old(cache.entries)
      ensures !fails ==> repo.ddb.table == old(repo.ddb.table)[repo.ddb.KeyFor(videoId, ownerUsername) := Marked(info, Error)]
                         && statusWrites == old(statusWrites) + [Error]
      ensures cache.connected == old(cache.connected)
      ensures KeptOrDropped(old(cache.entries), cache.entries, VideoInfoKey(videoId, ownerUsername))
      ensures !fails && old(cache.connected) && old(cache.script) == [] ==>
                cache.entries == old(cache.entries) - {VideoInfoKey(videoId, ownerUsername)} && cache.script == []
    {
      StatusOverwritten(info, S(StatusName(Processing)), S(StatusName(Error)));
      r := WriteStatus(videoId, ownerUsername, Error, fails);
    }

    /** The summary, then the writes after the `try` block: the transcript
        fields, then the status "completed", over the record marked
        "processing". Neither write is guarded: a refused one raises and the
        rest is not done. */
    method Complete(videoId: string, ownerUsername: string, info: Item, t: Transcription, compressed: string,
                    llm: Llm, data: TranscriptData, faults: TableFaults)
      returns (r: Result<string>)
      requires data == TranscriptDataFor(videoId, t)
      requires repo.ddb.KeyFor(videoId, ownerUsername) in repo.ddb.table
      requires repo.ddb.table[repo.ddb.KeyFor(videoId, ownerUsername)] == Marked(info, Processing)
      modifies repo.ddb, cache, this
      ensures r == FinishedResult(Ok(compressed), llm, faults)
      ensures repo.ddb.table == old(repo.ddb.table)[repo.ddb.KeyFor(videoId, ownerUsername) :=
                FinalItem(info, Ok(compressed), videoId, t, llm, faults)]
      ensures statusWrites == old(statusWrites) + LaterStatuses(Ok(compressed), faults)
      ensures cache.connected == old(cache.connected)
      ensures KeptOrDropped(old(cache.entries), cache.entries, VideoInfoKey(videoId, ownerUsername))
    {
      ghost var k := repo.ddb.KeyFor(videoId, ownerUsername);
      ghost var t0 := repo.ddb.table;
      var summary := GenerateSummary(Some(compressed), llm);
      ghost var writes0 := statusWrites;
      ghost var later := LaterStatuses(Ok(compressed), faults);
      var saved := SaveResults(videoId, ownerUsername, info, t, compressed, summary, data, faults.save);
      var written := Ok(());
      if saved.Ok? {
        ghost var saved1 := SavedItem(info, videoId, t, compressed, summary);
        written := MarkCompleted(videoId, ownerUsername, info, t, compressed, summary, faults.completed);
        Overwritten(t0, k, saved1, repo.ddb.table[k]);
      }
      assert later == if saved.Ok? && written.Ok? then [Completed] else [];
      assert statusWrites == writes0 + later;
      r := if saved.Raised? then Raised(saved.exc) else if written.Raised? then Raised(written.exc) else Ok(summary);
    }

    /** The status "completed" over the record holding the transcript fields;
        a refused write leaves those fields over "processing". */
    method MarkCompleted(videoId: string, ownerUsername: string, info: Item, t: Transcription, compressed: string,
                         summary: string, fails: bool)
      returns (r: Result<()>)
      requires repo.ddb.KeyFor(videoId, ownerUsername) in repo.ddb.table
      requires repo.ddb.table[repo.ddb.KeyFor(videoId, ownerUsername)] == SavedItem(info, videoId, t, compressed, summary)
      modifies repo.ddb, cache, this
      ensures r == if fails then Raised(Unavailable) else Ok(())
      ensures repo.ddb.table == old(repo.ddb.table)[repo.ddb.KeyFor(videoId, ownerUsername) :=
                if fails then SavedItem(info, videoId, t, compressed, summary)
                else CompletedItem(info, videoId, t, compressed, summary)]
      ensures statusWrites == old(statusWrites) + (if fails then [] else [Completed])
      ensures cache.connected == old(cache.connected)
      ensures KeptOrDropped(old(cache.entries), cache.entries, VideoInfoKey(videoId, ownerUsername))
    {
      ghost var k := repo.ddb.KeyFor(videoId, ownerUsername);
      ghost var t0 := repo.ddb.table;
      assert t0 == t0[k := SavedItem(info, videoId, t, compressed, summary)];
      CompletedOverSaved(t0, k, info, videoId, t, compressed, summary, t0);
      r := WriteStatus(videoId, ownerUsername, Completed, fails);
    }

    /** `save_transcript_data` with the data `_save_transcript` returned, over
        the record marked "processing". */
    method SaveResults(videoId: string, ownerUsername: string, info: Item, t: Transcription, compressed: string,
                       summary: string, data: TranscriptData, fails: bool)
      returns (r: Result<()>)
      requires data == TranscriptDataFor(videoId, t)
      requires repo.ddb.KeyFor(videoId, ownerUsername) in repo.ddb.table
      requires repo.ddb.table[repo.ddb.KeyFor(videoId, ownerUsername)] == Marked(info, Processing)
      modifies repo.ddb
      ensures r == if fails then Raised(Unavailable) else Ok(())
      ensures repo.ddb.table == old(repo.ddb.table)[repo.ddb.KeyFor(videoId, ownerUsername) :=
                if fails then Marked(info, Processing) else SavedItem(info, videoId, t, compressed, summary)]
    {
      ghost var k := repo.ddb.KeyFor(videoId, ownerUsername);
      ghost var t0 := repo.ddb.table;
      CompletedFieldsOfData(videoId, t, compressed, summary, data);
      r := repo.SaveTranscriptData(videoId, compressed, summary, data.segmentsCount, data.totalCharacters,
                                   data.totalWords, ownerUsername, Some(data.transcriptS3Key), Some(data.textS3Key),
                                   Some(data.metadataS3Key), None, fails);
      Unchanged(t0, k);
    }

    /** The `try` block's steps before the summary: the file type lookup, the
        three puts and the compression. */
    method Attempt(videoId: string, info: Item, t: Transcription, now: string)
      returns (step: Result<string>, data: TranscriptData)
      requires compressor.Valid()
      modifies blobs, compressor
      ensures compressor.Valid()
      ensures (step, blobs.objects) == Attempted(info, videoId, blobs.unreachable, old(blobs.objects), t, compressor.rank, now)
      ensures data == TranscriptDataFor(videoId, t)
    {
      data := TranscriptDataFor(videoId, t);
      if "file_type" !in info {
        return Raised(KeyError), data;
      }
      var saved := SaveTranscript(videoId, t, now);
      if saved.Raised? {
        return Raised(saved.exc), data;
      }
      step := compressor.CompressSegments(t);
    }

    /** `get_transcript`: the text artifact of a completed, owned record; the
        refused read of `get_video_info` is not caught. Only a plain-text blob
        is served, where the source decodes any body at the text key; the
        text key never holds anything else here. */
    method GetTranscript(videoId: string, ownerUsername: string, readFails: bool) returns (r: Result<Option<string>>)
      modifies cache
      ensures var cached := CachedInfo(old(cache.connected), old(cache.NextCall()), old(cache.entries), VideoInfoKey(videoId, ownerUsername));
              var info := InfoRead(cached, readFails, Lookup(repo.ddb.table, repo.ddb.KeyFor(videoId, ownerUsername)));
              r == if info.Raised? then Raised(info.exc) else Ok(TranscriptOf(info.value, ownerUsername, blobs.unreachable, blobs.objects))
    {
      var info := GetVideoInfo(videoId, ownerUsername, readFails);
      if info.Raised? {
        return Raised(info.exc);
      }
      if info.value.None? || info.value.value == map[] || Get(info.value.value, "status") != Some(S("completed")) {
        return Ok(None);
      }
      if Get(info.value.value, "owner_username") != Some(S(ownerUsername)) {
        return Ok(None);
      }
      var textKey := KeyAt(info.value.value, "transcript_text_s3_key");
      if textKey.None? {
        return Ok(None);
      }
      var obj := blobs.GetObject(textKey.value);
      if obj.Raised? || !obj.value.PlainTextFile? {
        return Ok(None);
      }
      r := Ok(Some(obj.value.text));
    }

    /** `get_summary`: the summary of a completed, owned record; the refused
        read of `get_video_info` is not caught. */
    method GetSummary(videoId: string, ownerUsername: string, readFails: bool) returns (r: Result<Option<AttrValue>>)
      modifies cache
      ensures var cached := CachedInfo(old(cache.connected), old(cache.NextCall()), old(cache.entries), VideoInfoKey(videoId, ownerUsername));
              var info := InfoRead(cached, readFails, Lookup(repo.ddb.table, repo.ddb.KeyFor(videoId, ownerUsername)));
              r == if info.Raised? then Raised(info.exc) else Ok(SummaryOf(info.value, ownerUsername))
    {
      var info := GetVideoInfo(videoId, ownerUsername, readFails);
      if info.Raised? {
        return Raised(info.exc);
      }
      if info.value.Some? && info.value.value != map[] && Get(info.value.value, "status") == Some(S("completed")) {
        if Get(info.value.value, "owner_username") == Some(S(ownerUsername)) {
          return Ok(Get(info.value.value, "summary"));
        }
      }
      r := Ok(None);
    }
  }
}

// `VideoRepository`: the record layout of a video in the metadata table and
// the repository operations over `DynamoDbClient`.

module VideoRepository {
  import opened Common
  import opened UpdateExpression
  import opened Store

  /** The status `save_metadata` writes when the caller gives none. */
  const DefaultStatus: string := "uploaded"

  /** The page size `list_by_owner` asks for when the caller gives none. */
  const DefaultListLimit: int := 100

  /** The ten attributes of a metadata record. */
  const MetadataAttrs: set<string> :=
    {PartitionAttr, SortKeyAttr, "video_id", "filename", "s3_key", "s3_bucket", "file_type", "created_at", "status",
     "owner_username"}

  /** The ten attribute names are distinct. */
  lemma MetadataAttrsCount()
    ensures |MetadataAttrs| == 10
  {
  }

  /** The item `save_metadata` writes. `now` is `datetime.now().isoformat()`. */
  function MetadataItem(qutUsername: string, videoId: string, filename: string, s3Key: string, s3Bucket: string,
                        fileType: string, ownerUsername: string, createdAt: Option<string>, status: string,
                        now: string): (r: Item)
    ensures KeyOfItem(r) == Some(TableKey(qutUsername, SortKey(ownerUsername, videoId)))
    ensures r.Keys == MetadataAttrs
    ensures "created_at" in r && r["created_at"] == S(if createdAt.Some? && createdAt.value != "" then createdAt.value else now)
    ensures "status" in r && r["status"] == S(status)
    ensures "owner_username" in r && r["owner_username"] == S(ownerUsername)
    ensures "video_id" in r && r["video_id"] == S(videoId)
  {
    map[PartitionAttr := S(qutUsername),
        SortKeyAttr := S(SortKey(ownerUsername, videoId)),
        "video_id" := S(videoId),
        "filename" := S(filename),
        "s3_key" := S(s3Key),
        "s3_bucket" := S(s3Bucket),
        "file_type" := S(fileType),
        "created_at" := S(if createdAt.Some? && createdAt.value != "" then createdAt.value else now),
        "status" := S(status),
        "owner_username" := S(ownerUsername)]
  }

  /** An optional S3 key or path as a field, present only when truthy. */
  function OptionalField(k: string, v: Option<string>): (r: Fields)
    ensures |r| <= 1
    ensures r != [] <==> v.Some? && v.value != ""
    ensures r != [] ==> r[0] == (k, S(v.value))
  {
    if v.Some? && v.value != "" then [(k, S(v.value))] else []
  }

  /** The fields `save_transcript_data` hands to `update_fields`, in dict order. */
  function TranscriptFields(transcriptText: string, summary: string, segmentsCount: int, totalCharacters: int,
                            totalWords: int, transcriptS3Key: Option<string>, transcriptTextS3Key: Option<string>,
                            transcriptMetadataS3Key: Option<string>, audioPath: Option<string>): (r: Fields)
    ensures 5 <= |r| <= 9
    ensures r[..5] == [("transcript", S(transcriptText)), ("summary", S(summary)), ("segments_count", N(segmentsCount)),
                      ("total_characters", N(totalCharacters)), ("total_words", N(totalWords))]
  {
    TranscriptBaseFields(transcriptText, summary, segmentsCount, totalCharacters, totalWords)
    + OptionalField("transcript_s3_key", transcriptS3Key)
    + OptionalField("transcript_text_s3_key", transcriptTextS3Key)
    + OptionalField("transcript_metadata_s3_key", transcriptMetadataS3Key)
    + OptionalField("audio_path", audioPath)
  }

  function TranscriptBaseFields(transcriptText: string, summary: string, segmentsCount: int, totalCharacters: int,
                                totalWords: int): Fields
  {
    [("transcript", S(transcriptText)), ("summary", S(summary)), ("segments_count", N(segmentsCount)),
     ("total_characters", N(totalCharacters)), ("total_words", N(totalWords))]
  }

  lemma TranscriptBaseShape(transcriptText: string, summary: string, segmentsCount: int, totalCharacters: int,
                            totalWords: int)
    ensures var b := TranscriptBaseFields(transcriptText, summary, segmentsCount, totalCharacters, totalWords);
            DistinctKeys(b) && AllAttrNames(b)
            && KeySet(b) == {"transcript", "summary", "segments_count", "total_characters", "total_words"}
  {
    var b := TranscriptBaseFields(transcriptText, summary, segmentsCount, totalCharacters, totalWords);
    assert IsAttrName("transcript") && IsAttrName("summary") && IsAttrName("segments_count");
    assert IsAttrName("total_characters") && IsAttrName("total_words");
    assert KeySet(b) == {b[0].0, b[1].0, b[2].0, b[3].0, b[4].0};
  }

  lemma OptionalFieldShape(k: string, v: Option<string>)
    requires IsAttrName(k)
    ensures var f := OptionalField(k, v);
            DistinctKeys(f) && AllAttrNames(f) && KeySet(f) == (if v.Some? && v.value != "" then {k} else {})
  {
    var f := OptionalField(k, v);
    if f != [] { assert KeySet(f) == {f[0].0}; }
  }

  /** Adding one optional field to a dict that lacks its key. */
  lemma AddOptional(acc: Fields, k: string, v: Option<string>)
    requires DistinctKeys(acc) && AllAttrNames(acc) && IsAttrName(k) && k !in KeySet(acc)
    ensures var f := acc + OptionalField(k, v);
            DistinctKeys(f) && AllAttrNames(f)
            && KeySet(f) == KeySet(acc) + (if v.Some? && v.value != "" then {k} else {})
  {
    OptionalFieldShape(k, v);
    KeySetConcat(acc, OptionalField(k, v));
    DistinctConcat(acc, OptionalField(k, v));
    AllAttrNamesConcat(acc, OptionalField(k, v));
  }

  /** Four optional fields with distinct fresh names added to a dict. */
  lemma AddFourOptionals(f0: Fields, n1: string, v1: Option<string>, n2: string, v2: Option<string>,
                         n3: string, v3: Option<string>, n4: string, v4: Option<string>)
    requires DistinctKeys(f0) && AllAttrNames(f0)
    requires IsAttrName(n1) && IsAttrName(n2) && IsAttrName(n3) && IsAttrName(n4)
    requires n1 !in KeySet(f0) && n2 !in KeySet(f0) && n3 !in KeySet(f0) && n4 !in KeySet(f0)
    requires n1 != n2 && n1 != n3 && n1 != n4 && n2 != n3 && n2 != n4 && n3 != n4
    ensures var f := f0 + OptionalField(n1, v1) + OptionalField(n2, v2) + OptionalField(n3, v3) + OptionalField(n4, v4);
            DistinctKeys(f) && AllAttrNames(f)
            && (n1 in KeySet(f) <==> v1.Some? && v1.value != "")
            && (n2 in KeySet(f) <==> v2.Some? && v2.value != "")
            && (n3 in KeySet(f) <==> v3.Some? && v3.value != "")
            && (n4 in KeySet(f) <==> v4.Some? && v4.value != "")
  {
    AddOptional(f0, n1, v1);
    var f1 := f0 + OptionalField(n1, v1);
    AddOptional(f1, n2, v2);
    var f2 := f1 + OptionalField(n2, v2);
    AddOptional(f2, n3, v3);
    var f3 := f2 + OptionalField(n3, v3);
    AddOptional(f3, n4, v4);
  }

  /** The transcript fields form a valid dict of plain attribute names, and each
      optional key is present exactly when its value is truthy. */
  lemma TranscriptFieldsShape(transcriptText: string, summary: string, segmentsCount: int, totalCharacters: int,
                              totalWords: int, transcriptS3Key: Option<string>, transcriptTextS3Key: Option<string>,
                              transcriptMetadataS3Key: Option<string>, audioPath: Option<string>)
    ensures var f := TranscriptFields(transcriptText, summary, segmentsCount, totalCharacters, totalWords,
                                      transcriptS3Key, transcriptTextS3Key, transcriptMetadataS3Key, audioPath);
            DistinctKeys(f) && AllAttrNames(f)
            && ("transcript_s3_key" in KeySet(f) <==> transcriptS3Key.Some? && transcriptS3Key.value != "")
            && ("transcript_text_s3_key" in KeySet(f) <==> transcriptTextS3Key.Some? && transcriptTextS3Key.value != "")
            && ("transcript_metadata_s3_key" in KeySet(f) <==> transcriptMetadataS3Key.Some? && transcriptMetadataS3Key.value != "")
            && ("audio_path" in KeySet(f) <==> audioPath.Some? && audioPath.value != "")
  {
    TranscriptBaseShape(transcriptText, summary, segmentsCount, totalCharacters, totalWords);
    assert IsAttrName("transcript_s3_key") && IsAttrName("transcript_text_s3_key");
    assert IsAttrName("transcript_metadata_s3_key") && IsAttrName("audio_path");
    AddFourOptionals(TranscriptBaseFields(transcriptText, summary, segmentsCount, totalCharacters, totalWords),
                     "transcript_s3_key", transcriptS3Key, "transcript_text_s3_key", transcriptTextS3Key,
                     "transcript_metadata_s3_key", transcriptMetadataS3Key, "audio_path", audioPath);
  }

  /** One entry of `list_by_owner`: the nine projected attributes; `status`
      defaults to `uploaded`, the others to `None`. */
  datatype ListedVideo = ListedVideo(videoId: Option<AttrValue>, filename: Option<AttrValue>, summary: Option<AttrValue>,
                                     transcript: Option<AttrValue>, createdAt: Option<AttrValue>, status: AttrValue,
                                     fileType: Option<AttrValue>, s3Key: Option<AttrValue>, s3Bucket: Option<AttrValue>)

  datatype Listing = Listing(items: seq<ListedVideo>, lastEvaluatedKey: Option<Item>)

  function Project(it: Item): (r: ListedVideo)
    ensures r.status == (if "status" in it then it["status"] else S(DefaultStatus))
    ensures r.videoId == Get(it, "video_id") && r.summary == Get(it, "summary") && r.transcript == Get(it, "transcript")
  {
    ListedVideo(Get(it, "video_id"), Get(it, "filename"), Get(it, "summary"), Get(it, "transcript"),
                Get(it, "created_at"), if "status" in it then it["status"] else S(DefaultStatus),
                Get(it, "file_type"), Get(it, "s3_key"), Get(it, "s3_bucket"))
  }

  function ProjectAll(items: seq<Item>): (r: seq<ListedVideo>)
    ensures |r| == |items|
    ensures forall i :: 0 <= i < |items| ==> r[i] == Project(items[i])
  {
    if items == [] then [] else [Project(items[0])] + ProjectAll(items[1..])
  }

  /** A freshly saved record lists with its own id, file, the status it was
      saved with, and no summary or transcript yet. */
  lemma SavedRecordListing(qutUsername: string, videoId: string, filename: string, s3Key: string, s3Bucket: string,
                           fileType: string, ownerUsername: string, createdAt: Option<string>, status: string, now: string)
    ensures var l := Project(MetadataItem(qutUsername, videoId, filename, s3Key, s3Bucket, fileType, ownerUsername,
                                          createdAt, status, now));
            l.videoId == Some(S(videoId)) && l.filename == Some(S(filename)) && l.status == S(status)
            && l.fileType == Some(S(fileType)) && l.summary == None && l.transcript == None
  {
  }

  class VideoRepository {
    const ddb: DynamoDbClient

    constructor(ddb: DynamoDbClient)
      ensures this.ddb == ddb
    {
      this.ddb := ddb;
    }

    /** `save_metadata`: one put of the whole record; returns the video id,
        or re-raises the refused put. */
    method SaveMetadata(videoId: string, filename: string, s3Key: string, s3Bucket: string, fileType: string,
                        ownerUsername: string, createdAt: Option<string>, status: string, now: string, fails: bool)
      returns (r: Result<string>)
      modifies ddb
      ensures r == if fails then Raised(Unavailable) else Ok(videoId)
      ensures fails ==> ddb.table == old(ddb.table)
      ensures !fails ==> ddb.table == old(ddb.table)[ddb.KeyFor(videoId, ownerUsername) :=
                MetadataItem(ddb.qutUsername, videoId, filename, s3Key, s3Bucket, fileType, ownerUsername, createdAt, status, now)]
    {
      var item := MetadataItem(ddb.qutUsername, videoId, filename, s3Key, s3Bucket, fileType, ownerUsername, createdAt, status, now);
      var put := ddb.PutVideo(item, fails);
      if put.Raised? {
        return Raised(put.exc);
      }
      r := Ok(videoId);
    }

    /** `get`: the stored record or nothing, or the refused read re-raised. */
    method Get(videoId: string, ownerUsername: string, fails: bool) returns (r: Result<Option<Item>>)
      ensures r == if fails then Raised(Unavailable) else Ok(Lookup(ddb.table, ddb.KeyFor(videoId, ownerUsername)))
    {
      r := ddb.GetVideo(videoId, ownerUsername, fails);
    }

    /** `delete`: removes the record, or re-raises the refused call. */
    method Delete(videoId: string, ownerUsername: string, fails: bool) returns (r: Result<()>)
      modifies ddb
      ensures r.Raised? <==> fails
      ensures fails ==> r.exc == Unavailable && ddb.table == old(ddb.table)
      ensures !fails ==> ddb.table == DeleteKey(old(ddb.table), ddb.KeyFor(videoId, ownerUsername))
    {
      r := ddb.DeleteVideo(videoId, ownerUsername, fails);
    }

    /** `update_fields`: no write for an empty dict (only a read); otherwise
        one `update_item` with the request built from the fields, returning
        the new item. The one call it makes may be refused, and that is
        re-raised with nothing written. */
    method UpdateFields(videoId: string, fields: Fields, ownerUsername: string, fails: bool) returns (r: Result<Item>)
      modifies ddb
      ensures fails ==> r == Raised(Unavailable) && ddb.table == old(ddb.table)
      ensures fields == [] ==> ddb.table == old(ddb.table)
      ensures fields == [] && !fails ==> r == Ok(var cur := Lookup(old(ddb.table), ddb.KeyFor(videoId, ownerUsername));
                                                 if cur.Some? then cur.value else map[])
      ensures fields != [] && !fails ==>
                var u := UpdateItem(old(ddb.table), ddb.KeyFor(videoId, ownerUsername), RequestFor(fields));
                (u.Ok? ==> r == Ok(u.value.1) && ddb.table == u.value.0)
                && (u.Raised? ==> r == Raised(u.exc) && ddb.table == old(ddb.table))
    {
      if fields == [] {
        var current := ddb.GetVideo(videoId, ownerUsername, fails);
        if current.Raised? {
          return Raised(current.exc);
        }
        r := Ok(if current.value.Some? then current.value.value else map[]);
      } else {
        var req := BuildUpdateRequest(fields);
        r := ddb.UpdateVideo(videoId, ownerUsername, req, fails);
      }
    }

    /** `save_transcript_data`: one `update_fields` call with the transcript
        fields, over the stored record (or the bare key); a refused call is
        re-raised with nothing written. */
    method SaveTranscriptData(videoId: string, transcriptText: string, summary: string, segmentsCount: int,
                              totalCharacters: int, totalWords: int, ownerUsername: string,
                              transcriptS3Key: Option<string>, transcriptTextS3Key: Option<string>,
                              transcriptMetadataS3Key: Option<string>, audioPath: Option<string>, fails: bool)
      returns (r: Result<()>)
      modifies ddb
      ensures r == if fails then Raised(Unavailable) else Ok(())
      ensures fails ==> ddb.table == old(ddb.table)
      ensures var f := TranscriptFields(transcriptText, summary, segmentsCount, totalCharacters, totalWords,
                                        transcriptS3Key, transcriptTextS3Key, transcriptMetadataS3Key, audioPath);
              var k := ddb.KeyFor(videoId, ownerUsername);
              var base := if k in old(ddb.table) then old(ddb.table)[k] else KeyItem(k);
              !fails ==> ddb.table == old(ddb.table)[k := base + FieldsMap(f)]
    {
      var f := TranscriptFields(transcriptText, summary, segmentsCount, totalCharacters, totalWords,
                                transcriptS3Key, transcriptTextS3Key, transcriptMetadataS3Key, audioPath);
      TranscriptFieldsShape(transcriptText, summary, segmentsCount, totalCharacters, totalWords,
                            transcriptS3Key, transcriptTextS3Key, transcriptMetadataS3Key, audioPath);
      UpdateFieldsEffect(ddb.table, ddb.KeyFor(videoId, ownerUsername), f);
      var u := UpdateFields(videoId, f, ownerUsername, fails);
      if u.Raised? {
        return Raised(u.exc);
      }
      r := Ok(());
    }

    /** `list_by_owner`: the projected page and the continuation key, as the
        table service answered the owner query. */
    method ListByOwner(ownerUsername: string, limit: int, lastKey: Option<Item>, service: QueryRequest -> QueryResponse)
      returns (r: Listing)
      ensures var resp := service(QueryRequestFor(ddb.qutUsername, ownerUsername, limit, lastKey));
              r.items == ProjectAll(resp.items) && r.lastEvaluatedKey == resp.lastEvaluatedKey
    {
      var req, resp := ddb.QueryVideosByOwner(ownerUsername, limit, lastKey, service);
      r := Listing(ProjectAll(resp.items), resp.lastEvaluatedKey);
    }
  }

  /** A listing built from a conforming answer holds at most `limit` entries,
      each the projection of a record stored in the owner's sort-key range. */
  lemma ListingOfAnswer(t: Table, qutUsername: string, ownerUsername: string, limit: int, lastKey: Option<Item>,
                        resp: QueryResponse, i: nat)
    requires Answers(t, QueryRequestFor(qutUsername, ownerUsername, limit, lastKey), resp)
    requires i < |resp.items|
    ensures |ProjectAll(resp.items)| <= limit
    ensures exists k :: k in t && k.partition == qutUsername && ownerUsername + "#" <= k.sortKey
                        && ProjectAll(resp.items)[i] == Project(t[k])
  {
    var it := resp.items[i];
    var k := KeyOfItem(it).value;
    assert k in t && t[k] == it;
    assert SortKeyOf(it) == k.sortKey;
  }
}

// The object-key contract between upload and ingestion: the API builds
// `videos/{uuid}_{filename}` when it issues a presigned upload URL, and the
// ingestion Lambda parses the video id back out of the stored key.

module S3Keys {
  import opened Common

  const VideosPrefix: string := "videos/"

  /** The expiry, in seconds, of a presigned upload URL when the caller gives none. */
  const DefaultExpiresIn: int := 3600

  predicate IsLowerHex(c: char)
  {
    ('0' <= c <= '9') || ('a' <= c <= 'f')
  }

  predicate IsDashPosition(i: int)
  {
    i == 8 || i == 13 || i == 18 || i == 23
  }

  /** The text form of a random (version 4) UUID, as Python's `str(uuid.uuid4())` writes it. */
  predicate IsUuid4(s: string)
  {
    |s| == 36
    && (forall i :: 0 <= i < 36 && IsDashPosition(i) ==> s[i] == '-')
    && (forall i :: 0 <= i < 36 && !IsDashPosition(i) ==> IsLowerHex(s[i]))
    && s[14] == '4' && s[19] in "89ab"
  }

  lemma Uuid4Shape(id: string)
    requires IsUuid4(id)
    ensures '_' !in id && '-' in id && |id| == 36
  {
    assert id[8] == '-';
    forall i | 0 <= i < |id| ensures id[i] != '_' {
      assert IsDashPosition(i) || IsLowerHex(id[i]);
    }
  }

  /** The object key under which an upload with this id and file name is
      stored: under `videos/`, the id and the name joined by `_`. */
  function VideoKey(fileId: string, filename: string): (r: string)
    ensures VideosPrefix <= r && FilenamePart(r) == fileId + "_" + filename
  {
    VideosPrefix + fileId + "_" + filename
  }

  /** The request handed to the (foreign) URL signer. */
  datatype SignRequest = SignRequest(operation: string, bucket: string, key: string, contentType: string, expiresIn: int)

  /** The dictionary `create_presigned_url` returns: exactly these three keys. */
  datatype PresignedUpload = PresignedUpload(uploadUrl: string, fileId: string, s3Key: string)

  /** `create_presigned_url`: `fileId` is the freshly generated UUID and `sign` the
      signing call, both outside the model. */
  function CreatePresignedUrl(filename: string, contentType: string, expiresIn: int, fileId: string,
                              bucket: string, sign: SignRequest -> string): (r: PresignedUpload)
    ensures r.fileId == fileId
    ensures r.s3Key == "videos/" + fileId + "_" + filename
    ensures r.uploadUrl == sign(SignRequest("put_object", bucket, r.s3Key, contentType, expiresIn))
    ensures IsUuid4(fileId) ==> VideoIdOfDecodedKey(r.s3Key) == Some(r.fileId)
  {
    var key := VideoKey(fileId, filename);
    assert IsUuid4(fileId) ==> VideoIdOfDecodedKey(key) == Some(fileId) by {
      if IsUuid4(fileId) { KeyRoundTrip(fileId, filename); }
    }
    PresignedUpload(sign(SignRequest("put_object", bucket, key, contentType, expiresIn)), fileId, key)
  }

  /** The key with one leading `videos/` removed, if present. */
  function FilenamePart(decodedKey: string): (r: string)
    ensures VideosPrefix <= decodedKey ==> decodedKey == VideosPrefix + r
    ensures !(VideosPrefix <= decodedKey) ==> r == decodedKey
  {
    if VideosPrefix <= decodedKey then decodedKey[|VideosPrefix|..] else decodedKey
  }

  /** `extract_video_id_from_s3_key` after URL-decoding: the text before the first
      `_`, when it is 36 characters long and contains `-`. */
  function VideoIdOfDecodedKey(decodedKey: string): (r: Option<string>)
    ensures r.Some? ==> |r.value| == 36 && '-' in r.value && '_' !in r.value
    ensures r.Some? ==> '_' in FilenamePart(decodedKey)
    ensures '_' !in FilenamePart(decodedKey) ==> r == None
  {
    var part := FilenamePart(decodedKey);
    if '_' in part then
      var id := SplitOn(part, '_')[0];
      if |id| == 36 && '-' in id then Some(id) else None
    else None
  }

  /** The id is the text before the first `_`, when it has the id's shape. */
  lemma VideoIdIsFirstPiece(decodedKey: string)
    requires '_' in FilenamePart(decodedKey)
    ensures var id := TakeUntil(FilenamePart(decodedKey), '_');
            var r := VideoIdOfDecodedKey(decodedKey);
            (r.Some? <==> |id| == 36 && '-' in id) && (r.Some? ==> r.value == id)
  {
    SplitOnFirst(FilenamePart(decodedKey), '_');
  }

  /** `extract_video_id_from_s3_key`: `unquotePlus` is the URL decoder. Every
      failure inside yields `None`; the function never raises. */
  function ExtractVideoIdFromS3Key(s3Key: string, unquotePlus: string -> string): (r: Option<string>)
    ensures r.Some? ==> |r.value| == 36 && '-' in r.value && '_' !in r.value
    ensures '_' !in FilenamePart(unquotePlus(s3Key)) ==> r == None
    ensures forall fileId, filename :: IsUuid4(fileId) && unquotePlus(s3Key) == VideoKey(fileId, filename) ==> r == Some(fileId)
  {
    forall fileId, filename | IsUuid4(fileId) && unquotePlus(s3Key) == VideoKey(fileId, filename)
      ensures VideoIdOfDecodedKey(unquotePlus(s3Key)) == Some(fileId)
    {
      KeyRoundTrip(fileId, filename);
    }
    VideoIdOfDecodedKey(unquotePlus(s3Key))
  }

  /** Round trip: the id embedded by `VideoKey` is the id extracted. */
  lemma KeyRoundTrip(fileId: string, filename: string)
    requires IsUuid4(fileId)
    ensures VideoIdOfDecodedKey(VideoKey(fileId, filename)) == Some(fileId)
  {
    Uuid4Shape(fileId);
    var key := VideoKey(fileId, filename);
    assert key == VideosPrefix + (fileId + "_" + filename);
    var part := FilenamePart(key);
    assert part == fileId + "_" + filename;
    assert part == fileId + ['_'] + filename;
    TakeUntilConcat(fileId, '_', filename);
    assert part[36] == '_';
    VideoIdIsFirstPiece(key);
  }

  /** The `videos/` prefix is optional, and only one copy of it is removed. */
  lemma PrefixIsOptionalAndSingle(fileId: string, filename: string)
    requires IsUuid4(fileId)
    ensures VideoIdOfDecodedKey(fileId + "_" + filename) == Some(fileId)
    ensures VideoIdOfDecodedKey(VideosPrefix + VideoKey(fileId, filename)) == None
  {
    BareKeyId(fileId, filename);
    DoubledPrefixNoId(fileId, filename);
  }

  lemma BareKeyId(fileId: string, filename: string)
    requires IsUuid4(fileId)
    ensures VideoIdOfDecodedKey(fileId + "_" + filename) == Some(fileId)
  {
    Uuid4Shape(fileId);
    var bare := fileId + "_" + filename;
    assert bare == fileId + ['_'] + filename;
    TakeUntilConcat(fileId, '_', filename);
    assert !(VideosPrefix <= bare) by {
      assert IsLowerHex(fileId[0]) && bare[0] == fileId[0];
    }
    assert bare[36] == '_';
    VideoIdIsFirstPiece(bare);
  }

  lemma DoubledPrefixNoId(fileId: string, filename: string)
    requires IsUuid4(fileId)
    ensures VideoIdOfDecodedKey(VideosPrefix + VideoKey(fileId, filename)) == None
  {
    Uuid4Shape(fileId);
    var doubled := VideosPrefix + VideoKey(fileId, filename);
    var part := FilenamePart(doubled);
    assert part == VideosPrefix + (fileId + "_" + filename);
    assert part == VideosPrefix + fileId + ['_'] + filename;
    assert '_' !in VideosPrefix + fileId;
    TakeUntilConcat(VideosPrefix + fileId, '_', filename);
    assert part[|VideosPrefix + fileId|] == '_';
    VideoIdIsFirstPiece(doubled);
  }

  /** A name-only upload key, or one whose id part has the wrong length, yields no id. */
  lemma RejectedKeys()
    ensures VideoIdOfDecodedKey("videos/lecture.mp4") == None
    ensures VideoIdOfDecodedKey("videos/abc-def_lecture.mp4") == None
  {
    NameOnlyKey();
    ShortIdKey();
  }

  lemma NameOnlyKey()
    ensures VideoIdOfDecodedKey("videos/lecture.mp4") == None
  {
    assert FilenamePart("videos/lecture.mp4") == "lecture.mp4";
    assert '_' !in "lecture.mp4";
  }

  lemma ShortIdKey()
    ensures VideoIdOfDecodedKey("videos/abc-def_lecture.mp4") == None
  {
    var part := "abc-def_lecture.mp4";
    assert FilenamePart("videos/abc-def_lecture.mp4") == part;
    assert part == "abc-def" + ['_'] + "lecture.mp4";
    TakeUntilConcat("abc-def", '_', "lecture.mp4");
    assert part[7] == '_';
    VideoIdIsFirstPiece("videos/abc-def_lecture.mp4");
  }
}

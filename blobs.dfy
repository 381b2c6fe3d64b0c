// The S3 bucket as a map from object key to object. Which keys the service
// cannot reach (permissions, network) is fixed for the bucket's life.

module Blobs {
  import opened Common
  import opened TextCompressor

  /** The transcript metadata document (`metadata.json`). */
  datatype TranscriptMetadata = TranscriptMetadata(
    videoId: string, createdAt: string, segmentsCount: nat, totalCharacters: nat, totalWords: nat,
    transcriptS3Key: string, textS3Key: string)

  /** An object's content: an upload, or one of the three transcript
      artifacts (JSON and UTF-8 encodings are not modelled). */
  datatype Blob =
    | Upload(name: string)
    | SegmentsJson(transcription: Transcription)
    | PlainTextFile(text: string)
    | MetadataJson(metadata: TranscriptMetadata)

  const NoSuchKey: Exception := ClientError("NoSuchKey")
  const AccessDenied: Exception := ClientError("AccessDenied")

  /** What reading `key` yields: unreachable keys are refused, missing keys
      raise `NoSuchKey`. */
  function ReadObject(unreachable: set<string>, objects: map<string, Blob>, key: string): (r: Result<Blob>)
    ensures r.Ok? <==> key !in unreachable && key in objects
    ensures r.Ok? ==> r.value == objects[key]
    ensures r.Raised? ==> r.exc == (if key in unreachable then AccessDenied else NoSuchKey)
  {
    if key in unreachable then Raised(AccessDenied)
    else if key !in objects then Raised(NoSuchKey)
    else Ok(objects[key])
  }

  class BlobStore {
    /** Keys every request on which fails. */
    const unreachable: set<string>
    var objects: map<string, Blob>

    constructor(unreachable: set<string>, objects: map<string, Blob>)
      ensures this.unreachable == unreachable && this.objects == objects
    {
      this.unreachable := unreachable;
      this.objects := objects;
    }

    /** `put_object` */
    method PutObject(key: string, body: Blob) returns (r: Result<()>)
      modifies this
      ensures key in unreachable ==> r == Raised(AccessDenied) && objects == old(objects)
      ensures key !in unreachable ==> r == Ok(()) && objects == old(objects)[key := body]
    {
      if key in unreachable {
        return Raised(AccessDenied);
      }
      objects := objects[key := body];
      r := Ok(());
    }

    /** `get_object` (and `download_file`): a missing key raises too. */
    method GetObject(key: string) returns (r: Result<Blob>)
      ensures key in unreachable ==> r == Raised(AccessDenied)
      ensures key !in unreachable && key !in objects ==> r == Raised(NoSuchKey)
      ensures key !in unreachable && key in objects ==> r == Ok(objects[key])
      ensures r == ReadObject(unreachable, objects, key)
    {
      if key in unreachable {
        return Raised(AccessDenied);
      }
      if key !in objects {
        return Raised(NoSuchKey);
      }
      r := Ok(objects[key]);
    }

    /** `delete_object`: deleting a missing key succeeds. */
    method DeleteObject(key: string) returns (r: Result<()>)
      modifies this
      ensures key in unreachable ==> r == Raised(AccessDenied) && objects == old(objects)
      ensures key !in unreachable ==> r == Ok(()) && objects == old(objects) - {key}
    {
      if key in unreachable {
        return Raised(AccessDenied);
      }
      objects := objects - {key};
      r := Ok(());
    }
  }
}

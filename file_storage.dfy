/** The file-storage client the application service uploads CVs to
    (src/client/FileStorageClient.ts, implemented over S3 in
    src/client/S3FileStorageClient.ts). The bucket is a map from object
    key to file. The clock, the random UUID and the outcome of the S3
    request are inputs of each call. */
module FileStorage {
  import opened Wrappers
  import opened Errors
  import opened Js

  /** An uploaded file: its original name, its MIME type and its bytes. */
  datatype CvFile = CvFile(originalname: string, mimetype: string, content: seq<bv8>)

  /** What one upload sees of the world: the current time as an ISO-8601
      timestamp, the UUID drawn for it, and the error the S3 request
      fails with, if it does. */
  datatype UploadContext = UploadContext(now: string, uuid: string, sendFailure: Option<string>)

  /** `applications/<today>-<uuid>-<original name>`, where today is the
      calendar date of the current time. */
  function ObjectKey(file: CvFile, ctx: UploadContext): (key: string)
    ensures |key| >= 13 + |file.originalname| && key[..13] == "applications/"
    ensures key[|key| - |file.originalname|..] == file.originalname
  {
    "applications/" + DatePart(ctx.now) + "-" + ctx.uuid + "-" + file.originalname
  }

  function UploadFailureMessage(error: string): string {
    "Failed to upload file to S3: " + error
  }

  /** Two uploads on the same day of files with the same name get
      different keys whenever their UUIDs differ (UUIDs all have the same
      length), so a fresh UUID never overwrites an earlier CV. */
  lemma FreshUuidFreshKey(file: CvFile, c1: UploadContext, c2: UploadContext)
    requires DatePart(c1.now) == DatePart(c2.now)
    requires |c1.uuid| == |c2.uuid| && c1.uuid != c2.uuid
    ensures ObjectKey(file, c1) != ObjectKey(file, c2)
  {
    var prefix := "applications/" + DatePart(c1.now) + "-";
    var suffix := "-" + file.originalname;
    assert ObjectKey(file, c1) == prefix + c1.uuid + suffix;
    assert ObjectKey(file, c2) == prefix + c2.uuid + suffix;
    MiddleDecides(prefix, c1.uuid, c2.uuid, suffix);
  }

  /** Two strings with the same ends differ when their equal-length
      middles do. */
  lemma MiddleDecides(prefix: string, m1: string, m2: string, suffix: string)
    requires |m1| == |m2| && m1 != m2
    ensures prefix + m1 + suffix != prefix + m2 + suffix
  {
    var i :| 0 <= i < |m1| && m1[i] != m2[i];
    assert (prefix + m1 + suffix)[|prefix| + i] == m1[i];
    assert (prefix + m2 + suffix)[|prefix| + i] == m2[i];
  }

  class FileStorageClient {
    /** The bucket's objects by key. */
    var objects: map<string, CvFile>

    constructor (objects: map<string, CvFile>)
      ensures this.objects == objects
    {
      this.objects := objects;
    }

    /** `uploadFile`: stores the file under a fresh key and returns the
        key; a failed S3 request stores nothing and is rethrown with its
        error in the message. */
    method UploadFile(file: CvFile, ctx: UploadContext) returns (r: Result<string, Failure>)
      modifies this
      ensures ctx.sendFailure.Some? ==>
        r == Err(PlainError(UploadFailureMessage(ctx.sendFailure.value))) && objects == old(objects)
      ensures ctx.sendFailure.None? ==>
        r == Ok(ObjectKey(file, ctx)) && objects == old(objects)[ObjectKey(file, ctx) := file]
    {
      var key := ObjectKey(file, ctx);
      if ctx.sendFailure.Some? {
        return Err(PlainError(UploadFailureMessage(ctx.sendFailure.value)));
      }
      objects := objects[key := file];
      r := Ok(key);
    }
  }

}

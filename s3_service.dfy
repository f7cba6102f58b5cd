/**
 * `S3Service.uploadFile` (backend/src/s3/s3.service.ts): put one object in
 * the configured bucket and, once the put has completed, return its public
 * URL. The S3 client's `send` is a step whose outcome is given.
 */
module S3Service {
  import opened Wrappers
  import opened AwsConfig

  /** A `PutObjectCommand`: bucket (possibly undefined), key, body and content type. */
  datatype PutObject = PutObject(bucket: Option<string>, key: string, body: seq<bv8>, contentType: string)

  /** What `uploadFile` does: the command it sends, and the URL it returns or the error `send` rejected with. */
  datatype Upload = Upload(command: PutObject, url: Result<string, string>)

  /** `https://${bucketName}.s3.${process.env.AWS_REGION}.amazonaws.com/${key}`. */
  function PublicUrl(bucket: Option<string>, region: Option<string>, key: string): (url: string)
    ensures |url| >= 27 + |key|
    ensures url[..8] == "https://"
    ensures url[|url| - |key| - 15..] == ".amazonaws.com/" + key
  {
    "https://" + TemplateText(bucket) + ".s3." + TemplateText(region) + ".amazonaws.com/" + key
  }

  /** For one bucket and region, distinct keys give distinct URLs. */
  lemma PublicUrlInjective(bucket: Option<string>, region: Option<string>, key1: string, key2: string)
    requires PublicUrl(bucket, region, key1) == PublicUrl(bucket, region, key2)
    ensures key1 == key2
  {
    var url := PublicUrl(bucket, region, key1);
    var n := |url| - |key1|;
    assert url[n..] == key1;
    assert url[n..] == key2;
  }

  /**
   * `uploadFile(key, fileBuffer, mimeType)`: send one put of the unchanged
   * key, body and type to the selected bucket; if `send` rejects (with
   * `sendError`), no URL is produced; otherwise the URL names the same bucket.
   */
  function UploadFile(env: Env, key: string, fileBuffer: seq<bv8>, mimeType: string, sendError: Option<string>): (r: Upload)
    ensures r.command == PutObject(BucketName(env), key, fileBuffer, mimeType)
    ensures r.url.Ok? <==> sendError.None?
    ensures sendError.Some? ==> r.url == Err(sendError.value)
    ensures r.url.Ok? ==> r.url.value == PublicUrl(r.command.bucket, Lookup(env, "AWS_REGION"), key)
  {
    var bucketName := BucketName(env);
    var command := PutObject(bucketName, key, fileBuffer, mimeType);
    match sendError
    case Some(e) => Upload(command, Err(e))
    case None => Upload(command, Ok(PublicUrl(bucketName, Lookup(env, "AWS_REGION"), key)))
  }
}

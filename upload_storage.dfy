/**
 * The multer-s3 storage the upload route uses (backend/src/upload/upload.s3.ts):
 * the key each uploaded file is stored under. Its bucket is `AwsConfig.BucketName`.
 */
module UploadStorage {
  import opened Wrappers

  /** The prefix of every object key. */
  const KeyPrefix: string := "uploads/"

  /** `uploads/${randomUUID()}-${file.originalname}` for the given UUID. */
  function ObjectKey(uuid: string, originalName: string): (key: string)
    ensures |key| == |KeyPrefix| + |uuid| + 1 + |originalName|
    ensures key[..|KeyPrefix|] == KeyPrefix
    ensures key[|key| - |originalName|..] == originalName
    ensures key[|KeyPrefix|..|KeyPrefix| + |uuid|] == uuid
    ensures key[|KeyPrefix| + |uuid|] == '-'
  {
    KeyPrefix + uuid + "-" + originalName
  }

  /** For one file name, the key determines the UUID: distinct UUIDs give distinct keys. */
  lemma ObjectKeyInjective(uuid1: string, uuid2: string, originalName: string)
    requires ObjectKey(uuid1, originalName) == ObjectKey(uuid2, originalName)
    ensures uuid1 == uuid2
  {
    var key := ObjectKey(uuid1, originalName);
    assert key[|KeyPrefix|..|KeyPrefix| + |uuid1|] == uuid1;
    assert key[|KeyPrefix|..|KeyPrefix| + |uuid2|] == uuid2;
  }

  /** The arguments the `key` callback passes to `cb`: a null error and the key. */
  datatype KeyCallback = KeyCallback(error: Option<string>, key: string)

  /** The `key` option: it always succeeds, naming the object after the UUID and the original name. */
  function KeyOption(uuid: string, originalName: string): (cb: KeyCallback)
    ensures cb.error == None
    ensures cb.key == ObjectKey(uuid, originalName)
  {
    KeyCallback(None, ObjectKey(uuid, originalName))
  }
}

/**
 * The process environment, as the back end's S3 code reads it: a variable
 * is either unset or holds a string.
 */
module AwsConfig {
  import opened Wrappers
  import opened JsText

  /** `process.env`. */
  type Env = map<string, string>

  /** `process.env[name]`: its value, or `undefined`. */
  function Lookup(env: Env, name: string): (v: Option<string>)
    ensures v.Some? <==> name in env
    ensures v.Some? ==> v.value == env[name]
  {
    if name in env then Some(env[name]) else None
  }

  /**
   * `process.env.AWS_S3_BUCKET || process.env.AWS_BUCKET_NAME`: the first
   * when it is a non-empty string, otherwise whatever the second is.
   */
  function BucketName(env: Env): (bucket: Option<string>)
    ensures "AWS_S3_BUCKET" in env && Truthy(env["AWS_S3_BUCKET"]) ==> bucket == Some(env["AWS_S3_BUCKET"])
    ensures !("AWS_S3_BUCKET" in env && Truthy(env["AWS_S3_BUCKET"])) ==> bucket == Lookup(env, "AWS_BUCKET_NAME")
  {
    var primary := Lookup(env, "AWS_S3_BUCKET");
    if primary.Some? && Truthy(primary.value) then primary else Lookup(env, "AWS_BUCKET_NAME")
  }

  /** `${v}` in a template literal: the string itself, or the text `undefined`. */
  function TemplateText(v: Option<string>): (s: string)
    ensures v.Some? ==> s == v.value
    ensures v.None? ==> s == "undefined"
  {
    match v
    case Some(text) => text
    case None => "undefined"
  }
}

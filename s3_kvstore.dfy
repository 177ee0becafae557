/**
 * The S3 key-value store record: a required bucket, an endpoint that must be an http or
 * https URL when given, and its flag and resource defaults.
 */
module S3KvStore {
  import opened Wrappers
  import opened Json

  datatype S3Error = MissingBucket | FieldTypeError(field: string) | EndpointNotHttp(endpoint: string)

  datatype S3KvStore = S3KvStore(
    bucket: string,
    path: string,
    requesterPays: bool,
    awsRegion: Option<string>,
    endpoint: Option<string>,
    hostHeader: Option<string>,
    useConditionalWrite: Option<bool>,
    awsCredentials: Json,
    s3RequestConcurrency: Json,
    s3RequestRetries: Json,
    experimentalS3RateLimiter: Json,
    dataCopyConcurrency: Json)

  /** `^https?://`, where the pattern is anchored at the start of the string. */
  predicate IsHttpUrl(s: string)
  {
    (|s| >= 7 && s[..7] == "http://") || (|s| >= 8 && s[..8] == "https://")
  }

  /** A context resource: a dictionary, bool, number, string or None (not a list). */
  predicate IsContextResource(v: Json) { !v.Arr? }

  const ResourceFields: seq<string> :=
    ["aws_credentials", "s3_request_concurrency", "s3_request_retries", "experimental_s3_rate_limiter", "data_copy_concurrency"]

  function OptionalString(d: map<string, Json>, key: string): (r: Result<Option<string>, S3Error>)
    ensures r.Ok? <==> key !in d || d[key].Null? || d[key].Str?
    ensures r.Ok? ==> (r.value.None? <==> key !in d || d[key].Null?)
    ensures r.Ok? && r.value.Some? ==> d[key] == Str(r.value.value)
  {
    if key !in d || d[key].Null? then Ok(None)
    else if d[key].Str? then Ok(Some(d[key].s))
    else Err(FieldTypeError(key))
  }

  predicate OptionalStringAccepted(d: map<string, Json>, key: string) { key !in d || d[key].Null? || d[key].Str? }

  /** The dictionaries `S3KvStore` accepts, field by field. */
  predicate S3Accepted(d: map<string, Json>)
  {
    "bucket" in d && d["bucket"].Str?
    && ("path" in d ==> d["path"].Str?)
    && ("requester_pays" in d ==> IsLaxBool(d["requester_pays"]))
    && ("use_conditional_write" in d ==> d["use_conditional_write"].Null? || IsLaxBool(d["use_conditional_write"]))
    && (forall i :: 0 <= i < |ResourceFields| && ResourceFields[i] in d ==> IsContextResource(d[ResourceFields[i]]))
    && OptionalStringAccepted(d, "aws_region") && OptionalStringAccepted(d, "host_header")
    && OptionalStringAccepted(d, "endpoint")
    && ("endpoint" in d && d["endpoint"].Str? ==> IsHttpUrl(d["endpoint"].s))
  }

  /** `o` is None when `key` is missing or None, and otherwise the string it holds. */
  predicate HoldsOptionalString(d: map<string, Json>, key: string, o: Option<string>)
  {
    (o.None? <==> key !in d || d[key].Null?) && (o.Some? ==> d[key] == Str(o.value))
  }

  /**
   * Building the record from a dictionary: bucket is required, requester_pays defaults to
   * false, data_copy_concurrency defaults to its resource name, every other optional field to
   * None. The two flags take pydantic's lax bools.
   */
  function ParseS3KvStore(d: map<string, Json>): (r: Result<S3KvStore, S3Error>)
    ensures r.Ok? <==> S3Accepted(d)
    ensures "bucket" !in d ==> r == Err(MissingBucket)
    ensures r.Ok? ==> d["bucket"] == Str(r.value.bucket)
    ensures r.Ok? ==> r.value.path == (if "path" in d then d["path"].s else "")
    ensures r.Ok? ==> (r.value.requesterPays <==> "requester_pays" in d && LaxBoolValue(d["requester_pays"]))
    ensures r.Ok? ==> (r.value.useConditionalWrite.None? <==> "use_conditional_write" !in d || d["use_conditional_write"].Null?)
    ensures r.Ok? && r.value.useConditionalWrite.Some? ==> r.value.useConditionalWrite.value == LaxBoolValue(d["use_conditional_write"])
    ensures r.Ok? ==> HoldsOptionalString(d, "aws_region", r.value.awsRegion) && HoldsOptionalString(d, "host_header", r.value.hostHeader)
                      && HoldsOptionalString(d, "endpoint", r.value.endpoint)
    ensures r.Ok? && r.value.endpoint.Some? ==> IsHttpUrl(r.value.endpoint.value)
    ensures r.Ok? ==> r.value.awsCredentials == Get(d, "aws_credentials") && r.value.s3RequestConcurrency == Get(d, "s3_request_concurrency")
                      && r.value.s3RequestRetries == Get(d, "s3_request_retries")
                      && r.value.experimentalS3RateLimiter == Get(d, "experimental_s3_rate_limiter")
    ensures r.Ok? && "data_copy_concurrency" in d ==> r.value.dataCopyConcurrency == d["data_copy_concurrency"]
    ensures r.Ok? && "data_copy_concurrency" !in d ==> r.value.dataCopyConcurrency == Str("data_copy_concurrency")
  {
    if "bucket" !in d then Err(MissingBucket)
    else if !d["bucket"].Str? then Err(FieldTypeError("bucket"))
    else if "path" in d && !d["path"].Str? then Err(FieldTypeError("path"))
    else if "requester_pays" in d && !IsLaxBool(d["requester_pays"]) then Err(FieldTypeError("requester_pays"))
    else if "use_conditional_write" in d && !(d["use_conditional_write"].Null? || IsLaxBool(d["use_conditional_write"])) then
      Err(FieldTypeError("use_conditional_write"))
    else if exists i :: 0 <= i < |ResourceFields| && ResourceFields[i] in d && !IsContextResource(d[ResourceFields[i]]) then
      Err(FieldTypeError("context resource"))
    else
      match OptionalString(d, "aws_region")
      case Err(e) => Err(e)
      case Ok(region) =>
        match OptionalString(d, "endpoint")
        case Err(e) => Err(e)
        case Ok(endpoint) =>
          if endpoint.Some? && !IsHttpUrl(endpoint.value) then Err(EndpointNotHttp(endpoint.value))
          else
            match OptionalString(d, "host_header")
            case Err(e) => Err(e)
            case Ok(host) =>
              Ok(S3KvStore(
                d["bucket"].s,
                if "path" in d then d["path"].s else "",
                "requester_pays" in d && LaxBoolValue(d["requester_pays"]),
                region, endpoint, host,
                if "use_conditional_write" in d && !d["use_conditional_write"].Null? then Some(LaxBoolValue(d["use_conditional_write"])) else None,
                Get(d, "aws_credentials"),
                Get(d, "s3_request_concurrency"),
                Get(d, "s3_request_retries"),
                Get(d, "experimental_s3_rate_limiter"),
                if "data_copy_concurrency" in d then d["data_copy_concurrency"] else Str("data_copy_concurrency")))
  }

  /** The flag takes 0 and 1 as bools; a bucket alone gives every default. */
  lemma S3Examples()
    ensures ParseS3KvStore(map["bucket" := Str("b"), "requester_pays" := Int(1)]).Ok?
    ensures ParseS3KvStore(map["bucket" := Str("b"), "requester_pays" := Int(1)]).value.requesterPays
    ensures ParseS3KvStore(map["bucket" := Str("b"), "requester_pays" := Str("x")]).Err?
    ensures ParseS3KvStore(map["bucket" := Str("b")])
      == Ok(S3KvStore("b", "", false, None, None, None, None, Null, Null, Null, Null, Str("data_copy_concurrency")))
  {
    var d := map["bucket" := Str("b"), "requester_pays" := Int(1)];
    assert forall i :: 0 <= i < |ResourceFields| ==> ResourceFields[i] !in d;
    var e := map["bucket" := Str("b")];
    assert forall i :: 0 <= i < |ResourceFields| ==> ResourceFields[i] !in e;
  }

  /** Both schemes are accepted; a bare host or an ftp URL is not. */
  lemma EndpointExamples()
    ensures IsHttpUrl("http://localhost:9000") && IsHttpUrl("https://s3.amazonaws.com")
    ensures !IsHttpUrl("localhost:9000") && !IsHttpUrl("ftp://host") && !IsHttpUrl("https:/x")
  {
    assert "http://localhost:9000"[..7] == "http://";
    assert "https://s3.amazonaws.com"[..8] == "https://";
    assert "localhost:9000"[0] != "http://"[0];
    assert "ftp://host"[0] != "http://"[0];
    assert "https:/x"[4] != "http://"[4] && "https:/x"[7] != "https://"[7];
  }
}

/**
 * The second-draft key-value store union: the `file://`, `memory://` and `s3://` shorthand
 * strings, and the dispatch on the `driver` tag to the file, memory and S3 records.
 */
module KvStore {
  import opened Wrappers
  import opened Json
  import S3 = S3KvStore

  datatype KvError =
    | InvalidKvStoreString(value: string)
    | NotADictionary
    | UnknownDriver(tag: Json)
    | MissingPath
    | FieldTypeError(field: string)
    | UnknownFields(names: set<string>)
    | S3Invalid(error: S3.S3Error)

  predicate HasPrefix(s: string, p: string) { |p| <= |s| && s[..|p|] == p }

  /** The position of the first "/" in `s`, if any. */
  function IndexOfSlash(s: string): (r: Option<nat>)
    ensures r.None? <==> '/' !in s
    ensures r.Some? ==> r.value < |s| && s[r.value] == '/' && '/' !in s[..r.value]
  {
    if |s| == 0 then None
    else if s[0] == '/' then Some(0)
    else match IndexOfSlash(s[1..])
      case None => None
      case Some(k) =>
        assert s[..k + 1] == [s[0]] + s[1..][..k];
        Some(k + 1)
  }

  /**
   * `_str_to_kv_store`: non-strings pass through; `file://p` names a file store at p;
   * `memory://` a memory store, with a path only when one follows; `s3://b/p` an S3 bucket
   * b with path p, the path present only when a "/" follows the bucket. Anything else fails.
   */
  function StrToKvStore(v: Json): (r: Result<Json, KvError>)
    ensures !v.Str? ==> r == Ok(v)
    ensures v.Str? ==> (r.Ok? <==> HasPrefix(v.s, "file://") || HasPrefix(v.s, "memory://") || HasPrefix(v.s, "s3://"))
    ensures v.Str? && r.Ok? ==> r.value.Obj? && "driver" in r.value.fields
  {
    if !v.Str? then Ok(v)
    else
      var s := v.s;
      if HasPrefix(s, "file://") then Ok(Obj(map["driver" := Str("file"), "path" := Str(s[7..])]))
      else if HasPrefix(s, "memory://") then
        if s == "memory://" then Ok(Obj(map["driver" := Str("memory")]))
        else Ok(Obj(map["driver" := Str("memory"), "path" := Str(s[9..])]))
      else if HasPrefix(s, "s3://") then
        var rest := s[5..];
        match IndexOfSlash(rest)
        case None => Ok(Obj(map["driver" := Str("s3"), "bucket" := Str(rest)]))
        case Some(k) => Ok(Obj(map["driver" := Str("s3"), "bucket" := Str(rest[..k]), "path" := Str(rest[k + 1..])]))
      else Err(InvalidKvStoreString(s))
  }

  /** The file store record: a required path and four optional I/O resources; other keys are rejected. */
  datatype FileKvStore = FileKvStore(path: string, fileIoConcurrency: Json, fileIoSync: Json, fileIoMode: Json, fileIoLocking: Json)

  /** The memory store record: a path (default ""), an optional store resource, and `atomic` (default true). */
  datatype MemoryKvStore = MemoryKvStore(path: string, memoryKeyValueStore: Json, atomic: bool)

  /** The union: exactly one record, selected by the driver tag. */
  datatype KvStoreSpec = File(file: FileKvStore) | Memory(memory: MemoryKvStore) | S3(s3: S3.S3KvStore)

  function DriverOf(k: KvStoreSpec): string
  {
    match k
    case File(_) => "file"
    case Memory(_) => "memory"
    case S3(_) => "s3"
  }

  const FileFields: set<string> := {"driver", "path", "file_io_concurrency", "file_io_sync", "file_io_mode", "file_io_locking"}

  /** A context-resource value: anything but a list. */
  predicate IsResourceValue(v: Json) { !v.Arr? }

  /** The dictionaries the file store record accepts: known keys only, a string path, no list-valued resource. */
  predicate FileAccepted(d: map<string, Json>)
  {
    d.Keys <= FileFields && "path" in d && d["path"].Str?
    && forall k :: k in d && k != "driver" && k != "path" ==> IsResourceValue(d[k])
  }

  /**
   * The file store record. The `Literal["file"]` driver is not checked here: the record is
   * reached only through `ParseKvStore`, which selects it by that very tag.
   */
  function ParseFileKvStore(d: map<string, Json>): (r: Result<FileKvStore, KvError>)
    ensures r.Ok? <==> FileAccepted(d)
    ensures r.Ok? ==> d["path"] == Str(r.value.path)
                      && r.value.fileIoConcurrency == Get(d, "file_io_concurrency")
                      && r.value.fileIoSync == Get(d, "file_io_sync")
                      && r.value.fileIoMode == Get(d, "file_io_mode")
                      && r.value.fileIoLocking == Get(d, "file_io_locking")
    ensures !(d.Keys <= FileFields) ==> r == Err(UnknownFields(d.Keys - FileFields))
  {
    if !(d.Keys <= FileFields) then Err(UnknownFields(d.Keys - FileFields))
    else if "path" !in d then Err(MissingPath)
    else if !d["path"].Str? then Err(FieldTypeError("path"))
    else if exists k :: k in d && k != "driver" && k != "path" && !IsResourceValue(d[k]) then Err(FieldTypeError("file_io"))
    else Ok(FileKvStore(d["path"].s, Get(d, "file_io_concurrency"), Get(d, "file_io_sync"),
                        Get(d, "file_io_mode"), Get(d, "file_io_locking")))
  }

  /** The dictionaries the memory store record accepts: a string path, a lax-bool atomic and a resource, each when given. */
  predicate MemoryAccepted(d: map<string, Json>)
  {
    ("path" in d ==> d["path"].Str?)
    && ("atomic" in d ==> IsLaxBool(d["atomic"]))
    && ("memory_key_value_store" in d ==> IsResourceValue(d["memory_key_value_store"]))
  }

  /**
   * The memory store record; other keys are ignored. As for the file store, the
   * `Literal["memory"]` driver is left to the dispatch in `ParseKvStore`.
   */
  function ParseMemoryKvStore(d: map<string, Json>): (r: Result<MemoryKvStore, KvError>)
    ensures r.Ok? <==> MemoryAccepted(d)
    ensures r.Ok? && "path" in d ==> d["path"] == Str(r.value.path)
    ensures r.Ok? && "path" !in d ==> r.value.path == ""
    ensures r.Ok? ==> r.value.memoryKeyValueStore == Get(d, "memory_key_value_store")
    ensures r.Ok? && "atomic" !in d ==> r.value.atomic
    ensures r.Ok? && "atomic" in d ==> r.value.atomic == LaxBoolValue(d["atomic"])
  {
    if "path" in d && !d["path"].Str? then Err(FieldTypeError("path"))
    else if "atomic" in d && !IsLaxBool(d["atomic"]) then Err(FieldTypeError("atomic"))
    else if "memory_key_value_store" in d && !IsResourceValue(d["memory_key_value_store"]) then Err(FieldTypeError("memory_key_value_store"))
    else Ok(MemoryKvStore(if "path" in d then d["path"].s else "",
                          Get(d, "memory_key_value_store"),
                          if "atomic" in d then LaxBoolValue(d["atomic"]) else true))
  }

  /** The result of the record named by `tag`, wrapped in its union case. */
  function RecordFor(tag: Json, d: map<string, Json>): Result<KvStoreSpec, KvError>
  {
    if tag == Str("file") then
      (match ParseFileKvStore(d) case Ok(f) => Ok(File(f)) case Err(e) => Err(e))
    else if tag == Str("memory") then
      (match ParseMemoryKvStore(d) case Ok(m) => Ok(Memory(m)) case Err(e) => Err(e))
    else if tag == Str("s3") then
      (match S3.ParseS3KvStore(d) case Ok(x) => Ok(S3(x)) case Err(e) => Err(S3Invalid(e)))
    else Err(UnknownDriver(tag))
  }

  /** The `KvStore` type: the shorthand first, then the record named by the driver tag. */
  function ParseKvStore(v: Json): (r: Result<KvStoreSpec, KvError>)
    ensures StrToKvStore(v).Err? ==> r == Err(StrToKvStore(v).error)
    ensures StrToKvStore(v).Ok? && !StrToKvStore(v).value.Obj? ==> r == Err(NotADictionary)
    ensures StrToKvStore(v).Ok? && StrToKvStore(v).value.Obj? && "driver" !in StrToKvStore(v).value.fields
            ==> r == Err(UnknownDriver(Null))
    ensures StrToKvStore(v).Ok? && StrToKvStore(v).value.Obj? && "driver" in StrToKvStore(v).value.fields
            ==> r == RecordFor(StrToKvStore(v).value.fields["driver"], StrToKvStore(v).value.fields)
    ensures r.Ok? ==> StrToKvStore(v).Ok? && StrToKvStore(v).value.Obj?
                      && "driver" in StrToKvStore(v).value.fields
                      && StrToKvStore(v).value.fields["driver"] == Str(DriverOf(r.value))
  {
    match StrToKvStore(v)
    case Err(e) => Err(e)
    case Ok(w) =>
      if !w.Obj? then Err(NotADictionary)
      else if "driver" !in w.fields then Err(UnknownDriver(Null))
      else if w.fields["driver"] == Str("file") then
        match ParseFileKvStore(w.fields)
        case Err(e) => Err(e)
        case Ok(f) => Ok(File(f))
      else if w.fields["driver"] == Str("memory") then
        match ParseMemoryKvStore(w.fields)
        case Err(e) => Err(e)
        case Ok(m) => Ok(Memory(m))
      else if w.fields["driver"] == Str("s3") then
        match S3.ParseS3KvStore(w.fields)
        case Err(e) => Err(S3Invalid(e))
        case Ok(s) => Ok(S3(s))
      else Err(UnknownDriver(w.fields["driver"]))
  }

  /** A dictionary is accepted iff its driver names a record that accepts it. */
  lemma DictAcceptedIff(d: map<string, Json>)
    ensures ParseKvStore(Obj(d)).Ok? <==>
      "driver" in d &&
      ((d["driver"] == Str("file") && FileAccepted(d))
       || (d["driver"] == Str("memory") && MemoryAccepted(d))
       || (d["driver"] == Str("s3") && S3.S3Accepted(d)))
  {
  }

  /** The shorthand string of a record that has one: every field other than the location at its default. */
  function Shorthand(k: KvStoreSpec): Option<string>
  {
    match k
    case File(f) =>
      if f == FileKvStore(f.path, Null, Null, Null, Null) then Some("file://" + f.path) else None
    case Memory(m) =>
      if m == MemoryKvStore(m.path, Null, true) then Some("memory://" + m.path) else None
    case S3(s) =>
      if s == S3DefaultsWith(s.bucket, s.path) && '/' !in s.bucket && s.path != ""
      then Some("s3://" + s.bucket + "/" + s.path)
      else if s == S3DefaultsWith(s.bucket, "") && '/' !in s.bucket then Some("s3://" + s.bucket)
      else None
  }

  function S3DefaultsWith(bucket: string, path: string): S3.S3KvStore
  {
    S3.S3KvStore(bucket, path, false, None, None, None, None, Null, Null, Null, Null, Str("data_copy_concurrency"))
  }

  lemma FileRoundTrip(p: string)
    ensures ParseKvStore(Str("file://" + p)) == Ok(File(FileKvStore(p, Null, Null, Null, Null)))
  {
    var s := "file://" + p;
    assert HasPrefix(s, "file://") && s[7..] == p;
  }

  lemma MemoryRoundTrip(p: string)
    ensures ParseKvStore(Str("memory://" + p)) == Ok(Memory(MemoryKvStore(p, Null, true)))
    ensures p == "" ==> StrToKvStore(Str("memory://" + p)) == Ok(Obj(map["driver" := Str("memory")]))
  {
    var s := "memory://" + p;
    assert HasPrefix(s, "memory://") && s[9..] == p;
    assert !HasPrefix(s, "file://") by {
      assert s[0] != "file://"[0];
    }
    if p == "" {
      assert s == "memory://";
    }
  }

  lemma S3BucketShorthand(b: string)
    requires '/' !in b
    ensures StrToKvStore(Str("s3://" + b)) == Ok(Obj(map["driver" := Str("s3"), "bucket" := Str(b)]))
  {
    var s := "s3://" + b;
    assert HasPrefix(s, "s3://") && s[5..] == b;
    assert s[0] != "file://"[0] && s[0] != "memory://"[0];
  }

  lemma IndexOfSlashAfter(b: string, p: string)
    requires '/' !in b
    ensures IndexOfSlash(b + "/" + p) == Some(|b|)
  {
    var rest := b + "/" + p;
    assert rest[|b|] == '/' && rest[..|b|] == b;
  }

  lemma S3PathShorthand(b: string, p: string)
    requires '/' !in b
    ensures StrToKvStore(Str("s3://" + b + "/" + p)) == Ok(Obj(map["driver" := Str("s3"), "bucket" := Str(b), "path" := Str(p)]))
  {
    var t := "s3://" + b + "/" + p;
    var rest := b + "/" + p;
    assert HasPrefix(t, "s3://") && t[5..] == rest;
    assert t[0] != "file://"[0] && t[0] != "memory://"[0];
    IndexOfSlashAfter(b, p);
    assert rest[..|b|] == b && rest[|b| + 1..] == p;
  }

  lemma S3RecordDefaults(d: map<string, Json>, b: string, p: string)
    requires d.Keys <= {"driver", "bucket", "path"} && "bucket" in d && d["bucket"] == Str(b)
    requires ("path" in d ==> d["path"] == Str(p)) && ("path" !in d ==> p == "")
    ensures S3.ParseS3KvStore(d) == Ok(S3DefaultsWith(b, p))
  {
    forall i | 0 <= i < |S3.ResourceFields|
      ensures S3.ResourceFields[i] !in d
    {
    }
  }

  lemma S3RoundTrip(b: string, p: string)
    requires '/' !in b
    ensures ParseKvStore(Str("s3://" + b)) == Ok(S3(S3DefaultsWith(b, "")))
    ensures ParseKvStore(Str("s3://" + b + "/" + p)) == Ok(S3(S3DefaultsWith(b, p)))
  {
    S3BucketShorthand(b);
    S3RecordDefaults(map["driver" := Str("s3"), "bucket" := Str(b)], b, "");
    S3PathShorthand(b, p);
    S3RecordDefaults(map["driver" := Str("s3"), "bucket" := Str(b), "path" := Str(p)], b, p);
  }

  /** Every record that has a shorthand string parses back from it. */
  lemma ShorthandRoundTrip(k: KvStoreSpec)
    requires Shorthand(k).Some?
    ensures ParseKvStore(Str(Shorthand(k).value)) == Ok(k)
  {
    match k
    case File(f) => FileRoundTrip(f.path);
    case Memory(m) => MemoryRoundTrip(m.path);
    case S3(s) =>
      S3RoundTrip(s.bucket, s.path);
      S3RoundTrip(s.bucket, "");
  }

  /** A string with none of the three schemes is rejected; a dictionary passes through the shorthand step unchanged. */
  lemma ShorthandRejects()
    ensures StrToKvStore(Str("gs://bucket")) == Err(InvalidKvStoreString("gs://bucket"))
    ensures StrToKvStore(Str("/tmp/data")).Err?
  {
    assert "gs://bucket"[0] != "file://"[0] && "gs://bucket"[0] != "memory://"[0] && "gs://bucket"[0] != "s3://"[0];
    assert "/tmp/data"[0] != "file://"[0] && "/tmp/data"[0] != "memory://"[0] && "/tmp/data"[0] != "s3://"[0];
  }
}

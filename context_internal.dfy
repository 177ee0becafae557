/**
 * The context resource records: a cache pool with an optional positive byte limit and
 * three concurrency resources with positive limits and their defaults; and the
 * second-draft `Context` record, whose four resource fields are optional and whose
 * extra keys are kept.
 */
module InternalContext {
  import opened Wrappers
  import opened Json
  import Types

  datatype ContextError =
    | FieldTypeError(field: string)
    | NotPositive(field: string, value: int)
    | EmptyResourceName(field: string)

  /** The four resource kinds, one per `Context` field. */
  datatype ResourceKind = CachePoolKind | DataCopyKind | FileIoKind | HttpKind

  const ResourceKinds: seq<ResourceKind> := [CachePoolKind, DataCopyKind, FileIoKind, HttpKind]

  /** The `Context` field that holds each kind. */
  function FieldName(k: ResourceKind): string
  {
    match k
    case CachePoolKind => "cache_pool"
    case DataCopyKind => "data_copy_concurrency"
    case FileIoKind => "file_io_concurrency"
    case HttpKind => "http_concurrency"
  }

  /** The kind whose field has the given name, if any. */
  function KindOfName(name: string): (r: Option<ResourceKind>)
    ensures r.Some? ==> FieldName(r.value) == name
    ensures r.None? ==> forall k :: FieldName(k) != name
  {
    if name == "cache_pool" then Some(CachePoolKind)
    else if name == "data_copy_concurrency" then Some(DataCopyKind)
    else if name == "file_io_concurrency" then Some(FileIoKind)
    else if name == "http_concurrency" then Some(HttpKind)
    else None
  }

  /** A resource object. */
  datatype Resource =
    | CachePool(totalBytesLimit: Option<int>)
    | DataCopyConcurrency(limit: int)
    | FileIoConcurrency(limit: int)
    | HttpConcurrency(limit: int)

  function KindOf(r: Resource): ResourceKind
  {
    match r
    case CachePool(_) => CachePoolKind
    case DataCopyConcurrency(_) => DataCopyKind
    case FileIoConcurrency(_) => FileIoKind
    case HttpConcurrency(_) => HttpKind
  }

  /** The bounds: a byte limit and every concurrency limit is greater than zero. */
  predicate ValidResource(r: Resource)
  {
    match r
    case CachePool(limit) => limit.Some? ==> limit.value > 0
    case DataCopyConcurrency(limit) => limit > 0
    case FileIoConcurrency(limit) => limit > 0
    case HttpConcurrency(limit) => limit > 0
  }

  /** Each kind with every field at its default: no byte limit; concurrency 4, 4 and 32. */
  function DefaultResource(k: ResourceKind): (r: Resource)
    ensures KindOf(r) == k && ValidResource(r)
  {
    match k
    case CachePoolKind => CachePool(None)
    case DataCopyKind => DataCopyConcurrency(4)
    case FileIoKind => FileIoConcurrency(4)
    case HttpKind => HttpConcurrency(32)
  }

  /**
   * Validating a dictionary as a resource of kind `k`: a missing field takes its default,
   * a given one must be an int within its bound (None is also accepted for the byte limit).
   */
  function ParseResource(k: ResourceKind, d: map<string, Json>): (r: Result<Resource, ContextError>)
    ensures r.Ok? ==> KindOf(r.value) == k && ValidResource(r.value)
    ensures k == CachePoolKind ==> (r.Ok? <==> !("total_bytes_limit" in d && !(d["total_bytes_limit"].Null? || IsPositiveInt(d["total_bytes_limit"]))))
    ensures k != CachePoolKind ==> (r.Ok? <==> !("limit" in d && !IsPositiveInt(d["limit"])))
    ensures k == CachePoolKind && "total_bytes_limit" !in d ==> r == Ok(DefaultResource(k))
    ensures k != CachePoolKind && "limit" !in d ==> r == Ok(DefaultResource(k))
  {
    if k == CachePoolKind then
      var v := Get(d, "total_bytes_limit");
      if v.Null? then Ok(CachePool(None))
      else if !IsPyInt(v) then Err(FieldTypeError("total_bytes_limit"))
      else if PyIntValue(v) <= 0 then Err(NotPositive("total_bytes_limit", PyIntValue(v)))
      else Ok(CachePool(Some(PyIntValue(v))))
    else if "limit" !in d then Ok(DefaultResource(k))
    else if !IsPyInt(d["limit"]) then Err(FieldTypeError("limit"))
    else if PyIntValue(d["limit"]) <= 0 then Err(NotPositive("limit", PyIntValue(d["limit"])))
    else
      var n := PyIntValue(d["limit"]);
      Ok(match k
         case DataCopyKind => DataCopyConcurrency(n)
         case FileIoKind => FileIoConcurrency(n)
         case HttpKind => HttpConcurrency(n))
  }

  /** Writing a valid resource as a dictionary and validating it again gives it back. */
  function ResourceToDict(r: Resource): map<string, Json>
  {
    match r
    case CachePool(limit) => if limit.Some? then map["total_bytes_limit" := Int(limit.value)] else map[]
    case DataCopyConcurrency(n) => map["limit" := Int(n)]
    case FileIoConcurrency(n) => map["limit" := Int(n)]
    case HttpConcurrency(n) => map["limit" := Int(n)]
  }

  lemma ResourceRoundTrip(r: Resource)
    requires ValidResource(r)
    ensures ParseResource(KindOf(r), ResourceToDict(r)) == Ok(r)
  {
  }

  /** What a `Context` field holds: nothing, a resource object, a resource name, or a dictionary. */
  datatype Slot = NoValue | Object(resource: Resource) | Name(name: string) | Dict(fields: map<string, Json>)

  /** The second-draft `Context` record. */
  datatype ContextRecord = ContextRecord(slots: map<ResourceKind, Slot>, extra: map<string, Json>)

  /**
   * A field value given as JSON: None, a non-empty resource name, or a dictionary (kept
   * as a dictionary, not converted to a resource).
   */
  function ParseSlot(field: string, v: Json): (r: Result<Slot, ContextError>)
    ensures r.Ok? <==> v.Null? || (v.Str? && Types.IsContextResourceName(v.s)) || v.Obj?
    ensures r.Ok? && v.Str? ==> r.value == Name(v.s)
    ensures r.Ok? && v.Obj? ==> r.value == Dict(v.fields)
    ensures v.Null? ==> r == Ok(NoValue)
  {
    match v
    case Null => Ok(NoValue)
    case Str(s) => if Types.IsContextResourceName(s) then Ok(Name(s)) else Err(EmptyResourceName(field))
    case Obj(fields) => Ok(Dict(fields))
    case _ => Err(FieldTypeError(field))
  }

  function FieldNames(): set<string>
  {
    set k | k in ResourceKinds :: FieldName(k)
  }

  /**
   * Building the record from a dictionary: each of the four fields is optional (default
   * None) and validated by `ParseSlot`; every other key is kept as an extra.
   */
  function ParseContext(d: map<string, Json>): (r: Result<ContextRecord, ContextError>)
    ensures r.Ok? ==> r.value.slots.Keys == set k | k in ResourceKinds
    ensures r.Ok? ==> forall k :: k in ResourceKinds && FieldName(k) !in d ==> r.value.slots[k] == NoValue
    ensures r.Ok? ==> forall k :: k in ResourceKinds && FieldName(k) in d ==> ParseSlot(FieldName(k), d[FieldName(k)]) == Ok(r.value.slots[k])
    ensures r.Ok? <==> forall k :: k in ResourceKinds && FieldName(k) in d ==> ParseSlot(FieldName(k), d[FieldName(k)]).Ok?
    ensures r.Ok? ==> r.value.extra == map n | n in d && n !in FieldNames() :: d[n]
  {
    var cp := ParseSlot("cache_pool", Get(d, "cache_pool"));
    var dc := ParseSlot("data_copy_concurrency", Get(d, "data_copy_concurrency"));
    var fi := ParseSlot("file_io_concurrency", Get(d, "file_io_concurrency"));
    var hc := ParseSlot("http_concurrency", Get(d, "http_concurrency"));
    if cp.Err? then assert FieldName(ResourceKinds[0]) in d; Err(cp.error)
    else if dc.Err? then assert FieldName(ResourceKinds[1]) in d; Err(dc.error)
    else if fi.Err? then assert FieldName(ResourceKinds[2]) in d; Err(fi.error)
    else if hc.Err? then assert FieldName(ResourceKinds[3]) in d; Err(hc.error)
    else
      Ok(ContextRecord(
        map[CachePoolKind := cp.value, DataCopyKind := dc.value, FileIoKind := fi.value, HttpKind := hc.value],
        map n | n in d && n !in FieldNames() :: d[n]))
  }

  /** An empty dictionary gives a context with all four fields None and no extras. */
  lemma EmptyContext()
    ensures ParseContext(map[]).Ok?
    ensures forall k :: k in ResourceKinds ==> ParseContext(map[]).value.slots[k] == NoValue
    ensures ParseContext(map[]).value.extra == map[]
  {
  }

  /** The example: a byte limit and two concurrency limits given as dictionaries, which stay dictionaries. */
  lemma ContextExample()
    ensures var d := map["cache_pool" := Obj(map["total_bytes_limit" := Int(1000000000)]),
                         "data_copy_concurrency" := Obj(map["limit" := Int(8)]),
                         "http_concurrency" := Obj(map["limit" := Int(16)])];
      ParseContext(d).Ok?
      && ParseContext(d).value.slots[CachePoolKind] == Dict(map["total_bytes_limit" := Int(1000000000)])
      && ParseContext(d).value.slots[FileIoKind] == NoValue
      && ParseResource(HttpKind, ParseContext(d).value.slots[HttpKind].fields) == Ok(HttpConcurrency(16))
  {
    var d := map["cache_pool" := Obj(map["total_bytes_limit" := Int(1000000000)]),
                 "data_copy_concurrency" := Obj(map["limit" := Int(8)]),
                 "http_concurrency" := Obj(map["limit" := Int(16)])];
    assert ParseContext(d).value.slots[HttpKind] == Dict(map["limit" := Int(16)]);
  }
}

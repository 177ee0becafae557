/**
 * The first-draft `Context`: four resource fields that each hold nothing, a resource
 * object, a resource name or a dictionary, plus extra attributes. Assignments are
 * validated against the field's type; looking a resource up converts a dictionary held
 * under one of the four known names into the matching resource.
 */
module Context {
  import opened Wrappers
  import opened Json
  import Types
  import opened InternalContext

  /** What a field of kind `k` accepts: nothing, a resource of that kind, a non-empty name, or a dictionary. */
  predicate SlotFits(k: ResourceKind, s: Slot)
  {
    match s
    case NoValue => true
    case Object(r) => KindOf(r) == k && ValidResource(r)
    case Name(n) => Types.IsContextResourceName(n)
    case Dict(_) => true
  }

  /**
   * `get_resource` on the value `held` found under `name`: a resource object is returned
   * as it is; a dictionary under one of the four field names is validated as that field's
   * resource (which can fail); anything else gives None.
   */
  function ResourceFrom(name: string, held: Slot): (r: Result<Option<Resource>, ContextError>)
    ensures held.Object? ==> r == Ok(Some(held.resource))
    ensures held.Name? || held.NoValue? ==> r == Ok(None)
    ensures held.Dict? && KindOfName(name).None? ==> r == Ok(None)
    ensures held.Dict? && KindOfName(name).Some? ==>
      (r.Ok? <==> ParseResource(KindOfName(name).value, held.fields).Ok?)
      && (r.Ok? ==> r.value.Some? && KindOf(r.value.value) == KindOfName(name).value && ValidResource(r.value.value))
  {
    match held
    case Object(res) => Ok(Some(res))
    case Dict(d) =>
      (match KindOfName(name)
       case Some(k) =>
         (match ParseResource(k, d)
          case Ok(res) => Ok(Some(res))
          case Err(e) => Err(e))
       case None => Ok(None))
    case _ => Ok(None)
  }

  /** `CachePool.model_dump(exclude_defaults=True)`: the fields that differ from their defaults. */
  function CachePoolNonDefaults(c: Resource): (r: map<string, Json>)
    requires c.CachePool?
    ensures r == map[] <==> c == DefaultResource(CachePoolKind)
    ensures "total_bytes_limit" in r <==> c.totalBytesLimit.Some?
  {
    if c.totalBytesLimit.Some? then
      var r := map["total_bytes_limit" := Int(c.totalBytesLimit.value)];
      assert "total_bytes_limit" in r;
      r
    else map[]
  }

  /**
   * `CachePool.model_dump_json`: "{}" when no field differs from its default, otherwise the
   * full dump; `renderInt` is the JSON text of an integer.
   */
  function CachePoolDumpJson(c: Resource, renderInt: int -> string): string
    requires c.CachePool?
  {
    if CachePoolNonDefaults(c) == map[] then "{}"
    else "{\"total_bytes_limit\":" + (if c.totalBytesLimit.Some? then renderInt(c.totalBytesLimit.value) else "null") + "}"
  }

  /** The dump is "{}" exactly for the default cache pool, and otherwise names the byte limit. */
  lemma CachePoolDumpEmptyIffDefault(c: Resource, renderInt: int -> string)
    requires c.CachePool?
    ensures CachePoolDumpJson(c, renderInt) == "{}" <==> c.totalBytesLimit.None?
    ensures c.totalBytesLimit.Some? ==>
      CachePoolDumpJson(c, renderInt) == "{\"total_bytes_limit\":" + renderInt(c.totalBytesLimit.value) + "}"
  {
    if c.totalBytesLimit.Some? {
      assert |CachePoolDumpJson(c, renderInt)| > 2;
    }
  }

  lemma KindCases(k: ResourceKind)
    ensures k == CachePoolKind || k == DataCopyKind || k == FileIoKind || k == HttpKind
  {
  }

  class Context {
    /** The four resource fields, keyed by kind. */
    var slots: map<ResourceKind, Slot>
    /** Attributes set under any other name. */
    var extra: map<string, Slot>

    ghost predicate Valid()
      reads this
    {
      (forall k :: k in slots)
      && (forall k :: SlotFits(k, slots[k]))
      && (forall n :: n in extra ==> KindOfName(n).None?)
    }

    /** A context with all four fields None and no extras. */
    constructor ()
      ensures Valid()
      ensures forall k :: slots[k] == NoValue
      ensures extra == map[]
    {
      slots := map[CachePoolKind := NoValue, DataCopyKind := NoValue, FileIoKind := NoValue, HttpKind := NoValue];
      extra := map[];
      new;
      forall k ensures k in slots {
        KindCases(k);
      }
    }

    /** `create_default`: every field holds its resource with default values. */
    constructor CreateDefault()
      ensures Valid()
      ensures forall k :: slots[k] == Object(DefaultResource(k))
      ensures extra == map[]
    {
      slots := map[CachePoolKind := Object(DefaultResource(CachePoolKind)),
                   DataCopyKind := Object(DefaultResource(DataCopyKind)),
                   FileIoKind := Object(DefaultResource(FileIoKind)),
                   HttpKind := Object(DefaultResource(HttpKind))];
      extra := map[];
      new;
      forall k ensures k in slots {
        KindCases(k);
      }
    }

    /** `getattr(self, name, None)`. */
    function Held(name: string): (r: Slot)
      reads this
      requires Valid()
      ensures KindOfName(name).Some? ==> r == slots[KindOfName(name).value]
      ensures KindOfName(name).None? ==> r == (if name in extra then extra[name] else NoValue)
    {
      match KindOfName(name)
      case Some(k) => slots[k]
      case None => if name in extra then extra[name] else NoValue
    }

    /** `get_resource`. */
    function GetResource(name: string): (r: Result<Option<Resource>, ContextError>)
      reads this
      requires Valid()
      ensures r == ResourceFrom(name, Held(name))
      ensures r.Ok? && r.value.Some? && KindOfName(name).Some? ==> KindOf(r.value.value) == KindOfName(name).value
    {
      ResourceFrom(name, Held(name))
    }

    /**
     * `set_resource`: the assignment is validated against the field's type. On success the
     * attribute `name` holds `value` and nothing else changes; on failure nothing changes.
     * Any name other than the four fields is stored as an extra attribute.
     */
    method SetResource(name: string, value: Slot) returns (r: Outcome<ContextError>)
      requires Valid()
      modifies this
      ensures Valid()
      ensures r.Pass? <==> KindOfName(name).None? || SlotFits(KindOfName(name).value, value)
      ensures r.Pass? ==> Held(name) == value
      ensures r.Pass? && KindOfName(name).Some? ==> slots == old(slots)[KindOfName(name).value := value] && extra == old(extra)
      ensures KindOfName(name).None? ==> extra == old(extra)[name := value] && slots == old(slots)
      ensures r.Fail? ==> slots == old(slots) && extra == old(extra)
      ensures forall n :: n != name ==> Held(n) == old(Held(n))
    {
      match KindOfName(name)
      case None =>
        extra := extra[name := value];
        r := Pass;
      case Some(k) =>
        if SlotFits(k, value) {
          slots := slots[k := value];
          r := Pass;
        } else if value.Name? {
          r := Fail(EmptyResourceName(name));
        } else {
          r := Fail(FieldTypeError(name));
        }
    }
  }

  /** After a successful `set_resource` of a resource object, `get_resource` returns that object. */
  lemma SetThenGet(c: Context, name: string, res: Resource)
    requires c.Valid() && c.Held(name) == Object(res)
    ensures c.GetResource(name) == Ok(Some(res))
  {
  }

  /** A default context's lookups give the defaults 4, 4 and 32 and a cache pool with no limit. */
  lemma DefaultLookups(c: Context)
    requires c.Valid() && forall k :: c.slots[k] == Object(DefaultResource(k))
    requires c.extra == map[]
    ensures c.GetResource("cache_pool") == Ok(Some(CachePool(None)))
    ensures c.GetResource("data_copy_concurrency") == Ok(Some(DataCopyConcurrency(4)))
    ensures c.GetResource("file_io_concurrency") == Ok(Some(FileIoConcurrency(4)))
    ensures c.GetResource("http_concurrency") == Ok(Some(HttpConcurrency(32)))
    ensures c.GetResource("gcs_request_concurrency") == Ok(None)
  {
    assert c.Held("gcs_request_concurrency") == NoValue;
  }

  /** A dictionary under a field name is converted; a limit of zero is refused; a name gives None. */
  lemma DictLookups()
    ensures ResourceFrom("http_concurrency", Dict(map["limit" := Int(16)])) == Ok(Some(HttpConcurrency(16)))
    ensures ResourceFrom("data_copy_concurrency", Dict(map[])) == Ok(Some(DataCopyConcurrency(4)))
    ensures ResourceFrom("file_io_concurrency", Dict(map["limit" := Int(0)])).Err?
    ensures ResourceFrom("my_pool", Dict(map["limit" := Int(16)])) == Ok(None)
    ensures ResourceFrom("cache_pool", Name("shared_pool")) == Ok(None)
  {
  }
}

/**
 * The fluent specification builders. Each builder owns a specification dictionary that
 * its setters update in place, creating nested dictionaries on demand, and every setter
 * returns the builder itself so that calls chain. Where a setter writes below the top
 * level, its new state is `Put(old state, path, value)`; the lemmas about `Put` say that
 * the value lands at the path and that nothing off the path changes.
 */
module Builders {
  import opened Wrappers
  import opened Json
  import KvStore
  import ArrayDriver = Array
  import Zarr
  import N5

  /** `d[key]` as a dictionary, or the empty dictionary when it is missing (or not a dictionary). */
  function SubMap(d: map<string, Json>, key: string): (r: map<string, Json>)
    ensures key in d && d[key].Obj? ==> r == d[key].fields
    ensures !(key in d && d[key].Obj?) ==> r == map[]
  {
    if key in d && d[key].Obj? then d[key].fields else map[]
  }

  /** Setting `value` at a nested `path`, creating the dictionaries on the way when missing. */
  function Put(d: map<string, Json>, path: seq<string>, value: Json): (r: map<string, Json>)
    requires |path| >= 1
    ensures r.Keys == d.Keys + {path[0]}
    ensures forall k :: k in d && k != path[0] ==> r[k] == d[k]
    decreases |path|
  {
    if |path| == 1 then d[path[0] := value]
    else d[path[0] := Obj(Put(SubMap(d, path[0]), path[1..], value))]
  }

  /** The value at a nested path, if every step of the way is a dictionary holding the next key. */
  function Lookup(d: map<string, Json>, path: seq<string>): Option<Json>
    requires |path| >= 1
    decreases |path|
  {
    if path[0] !in d then None
    else if |path| == 1 then Some(d[path[0]])
    else if d[path[0]].Obj? then Lookup(d[path[0]].fields, path[1..])
    else None
  }

  /** After `Put`, the value is found at its path. */
  lemma {:induction false} PutThenLookup(d: map<string, Json>, path: seq<string>, value: Json)
    requires |path| >= 1
    ensures Lookup(Put(d, path, value), path) == Some(value)
    decreases |path|
  {
    if |path| > 1 {
      PutThenLookup(SubMap(d, path[0]), path[1..], value);
    }
  }

  /**
   * `Put` leaves every other path alone: a path that leaves `path` at some step `i` (the
   * same keys before it, a different key at it) reads the same before and after.
   */
  lemma {:induction false} PutLeavesOtherPaths(d: map<string, Json>, path: seq<string>, value: Json, other: seq<string>, i: nat)
    requires |path| >= 1 && i < |path| && i < |other|
    requires path[..i] == other[..i] && path[i] != other[i]
    ensures Lookup(Put(d, path, value), other) == Lookup(d, other)
    decreases i
  {
    if i > 0 {
      assert path[0] == other[0] by { assert path[..i][0] == other[..i][0]; }
      assert path[1..][..i - 1] == other[1..][..i - 1] by {
        assert path[1..][..i - 1] == path[..i][1..];
        assert other[1..][..i - 1] == other[..i][1..];
      }
      if |other| > 1 && |path| > 1 {
        PutLeavesOtherPaths(SubMap(d, path[0]), path[1..], value, other[1..], i - 1);
        if !(path[0] in d && d[path[0]].Obj?) {
          EmptyLookup(path[1..], value, other[1..], i - 1);
        }
      }
    }
  }

  /** Nothing but the path itself is found in a dictionary that `Put` built from empty. */
  lemma {:induction false} EmptyLookup(path: seq<string>, value: Json, other: seq<string>, i: nat)
    requires |path| >= 1 && i < |path| && i < |other|
    requires path[..i] == other[..i] && path[i] != other[i]
    ensures Lookup(Put(map[], path, value), other) == None
    decreases i
  {
    if i > 0 {
      assert path[0] == other[0] by { assert path[..i][0] == other[..i][0]; }
      assert path[1..][..i - 1] == other[1..][..i - 1] by {
        assert path[1..][..i - 1] == path[..i][1..];
        assert other[1..][..i - 1] == other[..i][1..];
      }
      if |other| > 1 && |path| > 1 {
        EmptyLookup(path[1..], value, other[1..], i - 1);
      }
    }
  }

  /** A two-level `Put` keeps the sibling keys of the nested dictionary it writes into. */
  lemma PutKeepsSiblings(d: map<string, Json>, outer: string, key: string, value: Json)
    ensures SubMap(Put(d, [outer, key], value), outer) == SubMap(d, outer)[key := value]
  {
    assert [outer, key][1..] == [key];
  }

  /** `s.replace("file://", "")`: every occurrence found scanning left to right is removed. */
  function RemoveFileScheme(s: string): (r: string)
    ensures |r| <= |s|
    decreases |s|
  {
    if |s| < 7 then s
    else if s[..7] == "file://" then RemoveFileScheme(s[7..])
    else [s[0]] + RemoveFileScheme(s[1..])
  }

  /** Whether "file://" occurs anywhere in `s`. */
  predicate ContainsFileScheme(s: string)
    decreases |s|
  {
    |s| >= 7 && (s[..7] == "file://" || ContainsFileScheme(s[1..]))
  }

  /** A string with no "file://" in it is left unchanged, and a leading "file://" is dropped. */
  lemma {:induction false} RemoveFileSchemeFacts(s: string)
    ensures !ContainsFileScheme(s) ==> RemoveFileScheme(s) == s
    ensures RemoveFileScheme("file://" + s) == RemoveFileScheme(s)
    decreases |s|
  {
    assert ("file://" + s)[..7] == "file://";
    assert ("file://" + s)[7..] == s;
    if |s| >= 7 && !ContainsFileScheme(s) {
      RemoveFileSchemeFacts(s[1..]);
      assert [s[0]] + s[1..] == s;
    }
  }

  /** The memory store's dictionary. */
  const MemoryStore: map<string, Json> := map["driver" := Str("memory")]

  /** A file store's dictionary. */
  function FileStore(path: string): map<string, Json>
  {
    map["driver" := Str("file"), "path" := Str(path)]
  }

  /** What a kvstore setter is given: a string, or a dictionary (a store record is given by its dump). */
  datatype KvStoreArg = KvString(s: string) | KvDict(d: map<string, Json>)

  /**
   * `SpecBuilder.kvstore`: "memory" is the memory store; a string starting with "/" or
   * "file://" is a file store whose path has "file://" removed; any other string is taken
   * as a driver name; a dictionary is stored as it is.
   */
  function GeneralKvStore(arg: KvStoreArg): (r: map<string, Json>)
    ensures arg.KvDict? ==> r == arg.d
    ensures arg.KvString? && arg.s == "memory" ==> r == MemoryStore
    ensures arg.KvString? && arg.s != "memory" && (KvStore.HasPrefix(arg.s, "/") || KvStore.HasPrefix(arg.s, "file://")) ==>
      r == FileStore(RemoveFileScheme(arg.s))
    ensures arg.KvString? && arg.s != "memory" && !KvStore.HasPrefix(arg.s, "/") && !KvStore.HasPrefix(arg.s, "file://") ==>
      r == map["driver" := Str(arg.s)]
  {
    match arg
    case KvDict(d) => d
    case KvString(s) =>
      if s == "memory" then MemoryStore
      else if KvStore.HasPrefix(s, "/") || KvStore.HasPrefix(s, "file://") then FileStore(RemoveFileScheme(s))
      else map["driver" := Str(s)]
  }

  /** The Zarr and N5 builders' kvstore: "memory", else a file store with the string as its path verbatim. */
  function DriverKvStore(arg: KvStoreArg): (r: map<string, Json>)
    ensures arg.KvDict? ==> r == arg.d
    ensures arg.KvString? && arg.s == "memory" ==> r == MemoryStore
    ensures arg.KvString? && arg.s != "memory" ==> r == FileStore(arg.s)
  {
    match arg
    case KvDict(d) => d
    case KvString(s) => if s == "memory" then MemoryStore else FileStore(s)
  }

  /**
   * The two string forms disagree on a "file://" URL: the general builder drops the scheme,
   * the Zarr and N5 builders keep it in the path.
   */
  lemma FileUrlFormsDisagree(t: string)
    requires !ContainsFileScheme(t)
    ensures GeneralKvStore(KvString("file://" + t)) == FileStore(t)
    ensures DriverKvStore(KvString("file://" + t)) == FileStore("file://" + t)
  {
    var s := "file://" + t;
    assert s[..7] == "file://";
    assert |s| != |"memory"|;
    RemoveFileSchemeFacts(t);
  }

  /** Any other string is a driver name in the general builder but a file path in the Zarr and N5 builders. */
  lemma DriverNameFormsDisagree()
    ensures GeneralKvStore(KvString("gcs")) == map["driver" := Str("gcs")]
    ensures DriverKvStore(KvString("gcs")) == FileStore("gcs")
  {
    var s := "gcs";
    assert s[..1][0] == 'g';
    assert !KvStore.HasPrefix(s, "/");
    assert |s| < |"file://"|;
    assert s != "memory" by { assert |s| != |"memory"|; }
  }

  /** Where `SpecBuilder.compression` writes, by the driver set when it is called. */
  function CompressionPath(driver: Json): (r: seq<string>)
    ensures |r| == 2
    ensures driver == Str("zarr") ==> r == ["metadata", "compressor"]
    ensures driver == Str("n5") ==> r == ["metadata", "compression"]
    ensures driver != Str("zarr") && driver != Str("n5") ==> r == ["schema", "codec"]
  {
    if driver == Str("zarr") then ["metadata", "compressor"]
    else if driver == Str("n5") then ["metadata", "compression"]
    else ["schema", "codec"]
  }

  /** The general builder. */
  class SpecBuilder {
    var specData: map<string, Json>

    /** Starts empty. */
    constructor ()
      ensures specData == map[]
    {
      specData := map[];
    }

    method Driver(driverName: string) returns (self: SpecBuilder)
      modifies this
      ensures self == this
      ensures specData == old(specData)["driver" := Str(driverName)]
    {
      specData := specData["driver" := Str(driverName)];
      self := this;
    }

    /** Creates `schema` when missing and sets its `dtype`. */
    method Dtype(dtype: string) returns (self: SpecBuilder)
      modifies this
      ensures self == this
      ensures specData == Put(old(specData), ["schema", "dtype"], Str(dtype))
    {
      if "schema" !in specData {
        specData := specData["schema" := Obj(map[])];
      }
      specData := specData["schema" := Obj(SubMap(specData, "schema")["dtype" := Str(dtype)])];
      self := this;
    }

    /** Creates `schema` and `schema.domain` when missing and sets the domain's `shape`. */
    method Shape(shape: seq<int>) returns (self: SpecBuilder)
      modifies this
      ensures self == this
      ensures specData == Put(old(specData), ["schema", "domain", "shape"], IntList(shape))
    {
      if "schema" !in specData {
        specData := specData["schema" := Obj(map[])];
      }
      var schema := SubMap(specData, "schema");
      if "domain" !in schema {
        schema := schema["domain" := Obj(map[])];
      }
      specData := specData["schema" := Obj(schema["domain" := Obj(SubMap(schema, "domain")["shape" := IntList(shape)])])];
      assert ["schema", "domain", "shape"][1..] == ["domain", "shape"];
      assert ["domain", "shape"][1..] == ["shape"];
      assert SubMap(schema, "domain") == SubMap(SubMap(old(specData), "schema"), "domain");
      assert schema == SubMap(old(specData), "schema")["domain" := schema["domain"]];
      ghost var s0 := SubMap(old(specData), "schema");
      assert Put(SubMap(s0, "domain"), ["shape"], IntList(shape)) == SubMap(s0, "domain")["shape" := IntList(shape)];
      assert Put(s0, ["domain", "shape"], IntList(shape)) == s0["domain" := Obj(Put(SubMap(s0, "domain"), ["shape"], IntList(shape)))];
      assert schema["domain" := Obj(SubMap(s0, "domain")["shape" := IntList(shape)])] == s0["domain" := Obj(SubMap(s0, "domain")["shape" := IntList(shape)])];
      self := this;
    }

    method KvStore(kvstore: KvStoreArg) returns (self: SpecBuilder)
      modifies this
      ensures self == this
      ensures specData == old(specData)["kvstore" := Obj(GeneralKvStore(kvstore))]
    {
      specData := specData["kvstore" := Obj(GeneralKvStore(kvstore))];
      self := this;
    }

    /** A context is given as a dictionary (a `Context` object by its dump). */
    method Context(context: map<string, Json>) returns (self: SpecBuilder)
      modifies this
      ensures self == this
      ensures specData == old(specData)["context" := Obj(context)]
    {
      specData := specData["context" := Obj(context)];
      self := this;
    }

    /** Creates `schema` and `schema.chunk_layout` when missing and sets the layout's `chunk_shape`. */
    method ChunkShape(chunkShape: seq<int>) returns (self: SpecBuilder)
      modifies this
      ensures self == this
      ensures specData == Put(old(specData), ["schema", "chunk_layout", "chunk_shape"], IntList(chunkShape))
    {
      if "schema" !in specData {
        specData := specData["schema" := Obj(map[])];
      }
      var schema := SubMap(specData, "schema");
      if "chunk_layout" !in schema {
        schema := schema["chunk_layout" := Obj(map[])];
      }
      specData := specData["schema" := Obj(schema["chunk_layout" := Obj(SubMap(schema, "chunk_layout")["chunk_shape" := IntList(chunkShape)])])];
      assert ["schema", "chunk_layout", "chunk_shape"][1..] == ["chunk_layout", "chunk_shape"];
      assert ["chunk_layout", "chunk_shape"][1..] == ["chunk_shape"];
      assert SubMap(schema, "chunk_layout") == SubMap(SubMap(old(specData), "schema"), "chunk_layout");
      assert schema == SubMap(old(specData), "schema")["chunk_layout" := schema["chunk_layout"]];
      ghost var s0 := SubMap(old(specData), "schema");
      assert Put(SubMap(s0, "chunk_layout"), ["chunk_shape"], IntList(chunkShape)) == SubMap(s0, "chunk_layout")["chunk_shape" := IntList(chunkShape)];
      assert Put(s0, ["chunk_layout", "chunk_shape"], IntList(chunkShape)) == s0["chunk_layout" := Obj(Put(SubMap(s0, "chunk_layout"), ["chunk_shape"], IntList(chunkShape)))];
      assert schema["chunk_layout" := Obj(SubMap(s0, "chunk_layout")["chunk_shape" := IntList(chunkShape)])] == s0["chunk_layout" := Obj(SubMap(s0, "chunk_layout")["chunk_shape" := IntList(chunkShape)])];
      self := this;
    }

    /** Writes the compression where the current driver expects it. */
    method Compression(compression: map<string, Json>) returns (self: SpecBuilder)
      modifies this
      ensures self == this
      ensures specData == Put(old(specData), CompressionPath(Get(old(specData), "driver")), Obj(compression))
    {
      var driver := Get(specData, "driver");
      var outer := if driver == Str("zarr") || driver == Str("n5") then "metadata" else "schema";
      var key := if driver == Str("zarr") then "compressor" else if driver == Str("n5") then "compression" else "codec";
      if outer !in specData {
        specData := specData[outer := Obj(map[])];
      }
      specData := specData[outer := Obj(SubMap(specData, outer)[key := Obj(compression)])];
      assert CompressionPath(driver) == [outer, key];
      assert CompressionPath(driver)[1..] == [key];
      self := this;
    }

    method Path(path: string) returns (self: SpecBuilder)
      modifies this
      ensures self == this
      ensures specData == old(specData)["path" := Str(path)]
    {
      specData := specData["path" := Str(path)];
      self := this;
    }

    method Metadata(metadata: map<string, Json>) returns (self: SpecBuilder)
      modifies this
      ensures self == this
      ensures specData == old(specData)["metadata" := Obj(metadata)]
    {
      specData := specData["metadata" := Obj(metadata)];
      self := this;
    }

    /**
     * `build`: validation of the dictionary as a specification, by `parse` (the
     * specification union is not part of this model).
     */
    method Build<S>(parse: map<string, Json> -> Result<S, string>) returns (r: Result<S, string>)
      ensures r == parse(specData)
    {
      r := parse(specData);
    }

    /** `build_dict`: a copy of the dictionary; the builder is unchanged. */
    method BuildDict() returns (r: map<string, Json>)
      ensures r == specData
    {
      r := specData;
    }
  }

  /** Compression goes under `metadata` for zarr and n5 and under `schema.codec` otherwise, keeping what is already there. */
  lemma CompressionTargets(d: map<string, Json>, c: map<string, Json>)
    ensures Get(d, "driver") == Str("zarr") ==>
      SubMap(Put(d, CompressionPath(Get(d, "driver")), Obj(c)), "metadata") == SubMap(d, "metadata")["compressor" := Obj(c)]
    ensures Get(d, "driver") == Str("n5") ==>
      SubMap(Put(d, CompressionPath(Get(d, "driver")), Obj(c)), "metadata") == SubMap(d, "metadata")["compression" := Obj(c)]
    ensures Get(d, "driver") != Str("zarr") && Get(d, "driver") != Str("n5") ==>
      SubMap(Put(d, CompressionPath(Get(d, "driver")), Obj(c)), "schema") == SubMap(d, "schema")["codec" := Obj(c)]
  {
    var p := CompressionPath(Get(d, "driver"));
    PutKeepsSiblings(d, p[0], p[1], Obj(c));
    assert p == [p[0], p[1]];
  }

  /** The array builder: starts with driver "array" and sets top-level keys only. */
  class ArraySpecBuilder {
    var specData: map<string, Json>

    constructor ()
      ensures specData == map["driver" := Str("array")]
    {
      specData := map["driver" := Str("array")];
    }

    /** The data as a nested list. */
    method Array(data: Json) returns (self: ArraySpecBuilder)
      modifies this
      ensures self == this
      ensures specData == old(specData)["array" := data]
    {
      specData := specData["array" := data];
      self := this;
    }

    method Dtype(dtype: string) returns (self: ArraySpecBuilder)
      modifies this
      ensures self == this
      ensures specData == old(specData)["dtype" := Str(dtype)]
    {
      specData := specData["dtype" := Str(dtype)];
      self := this;
    }

    /** A resource name or a dictionary. */
    method DataCopyConcurrency(concurrency: Json) returns (self: ArraySpecBuilder)
      modifies this
      ensures self == this
      ensures specData == old(specData)["data_copy_concurrency" := concurrency]
    {
      specData := specData["data_copy_concurrency" := concurrency];
      self := this;
    }

    method Context(context: map<string, Json>) returns (self: ArraySpecBuilder)
      modifies this
      ensures self == this
      ensures specData == old(specData)["context" := Obj(context)]
    {
      specData := specData["context" := Obj(context)];
      self := this;
    }

    /** `build`: `ArraySpec.model_validate` of the dictionary; the builder is unchanged. */
    method Build(asList: Json -> Option<Json>) returns (r: Result<ArrayDriver.ArraySpec, ArrayDriver.ArrayError>)
      ensures r == ArrayDriver.ParseArraySpec(specData, asList)
    {
      r := ArrayDriver.ParseArraySpec(specData, asList);
    }
  }

  /** The Zarr builder: starts with driver "zarr"; its metadata setters write one key of `metadata`. */
  class ZarrSpecBuilder {
    var specData: map<string, Json>

    constructor ()
      ensures specData == map["driver" := Str("zarr")]
    {
      specData := map["driver" := Str("zarr")];
    }

    method KvStore(kvstore: KvStoreArg) returns (self: ZarrSpecBuilder)
      modifies this
      ensures self == this
      ensures specData == old(specData)["kvstore" := Obj(DriverKvStore(kvstore))]
    {
      specData := specData["kvstore" := Obj(DriverKvStore(kvstore))];
      self := this;
    }

    method Path(path: string) returns (self: ZarrSpecBuilder)
      modifies this
      ensures self == this
      ensures specData == old(specData)["path" := Str(path)]
    {
      specData := specData["path" := Str(path)];
      self := this;
    }

    /** Creates `metadata` when missing and sets `key` in it. */
    method SetMetadata(key: string, value: Json)
      modifies this
      ensures specData == Put(old(specData), ["metadata", key], value)
    {
      if "metadata" !in specData {
        specData := specData["metadata" := Obj(map[])];
      }
      specData := specData["metadata" := Obj(SubMap(specData, "metadata")[key := value])];
    }

    method Chunks(chunks: seq<int>) returns (self: ZarrSpecBuilder)
      modifies this
      ensures self == this
      ensures specData == Put(old(specData), ["metadata", "chunks"], IntList(chunks))
    {
      SetMetadata("chunks", IntList(chunks));
      self := this;
    }

    method Compression(compressor: map<string, Json>) returns (self: ZarrSpecBuilder)
      modifies this
      ensures self == this
      ensures specData == Put(old(specData), ["metadata", "compressor"], Obj(compressor))
    {
      SetMetadata("compressor", Obj(compressor));
      self := this;
    }

    method FillValue(fillValue: Json) returns (self: ZarrSpecBuilder)
      modifies this
      ensures self == this
      ensures specData == Put(old(specData), ["metadata", "fill_value"], fillValue)
    {
      SetMetadata("fill_value", fillValue);
      self := this;
    }

    method Order(order: string) returns (self: ZarrSpecBuilder)
      modifies this
      ensures self == this
      ensures specData == Put(old(specData), ["metadata", "order"], Str(order))
    {
      SetMetadata("order", Str(order));
      self := this;
    }

    method Filters(filters: seq<map<string, Json>>) returns (self: ZarrSpecBuilder)
      modifies this
      ensures self == this
      ensures specData == Put(old(specData), ["metadata", "filters"], Arr(seq(|filters|, i requires 0 <= i < |filters| => Obj(filters[i]))))
    {
      SetMetadata("filters", Arr(seq(|filters|, i requires 0 <= i < |filters| => Obj(filters[i]))));
      self := this;
    }

    /** `build`: `ZarrSpec.model_validate` of the dictionary; the builder is unchanged. */
    method Build() returns (r: Result<Zarr.ZarrSpec, Zarr.ZarrError>)
      ensures r == Zarr.ParseZarrSpec(specData)
    {
      r := Zarr.ParseZarrSpec(specData);
    }
  }

  /** The N5 builder: starts with driver "n5"; its metadata setters write one key of `metadata`. */
  class N5SpecBuilder {
    var specData: map<string, Json>

    constructor ()
      ensures specData == map["driver" := Str("n5")]
    {
      specData := map["driver" := Str("n5")];
    }

    method KvStore(kvstore: KvStoreArg) returns (self: N5SpecBuilder)
      modifies this
      ensures self == this
      ensures specData == old(specData)["kvstore" := Obj(DriverKvStore(kvstore))]
    {
      specData := specData["kvstore" := Obj(DriverKvStore(kvstore))];
      self := this;
    }

    method Path(path: string) returns (self: N5SpecBuilder)
      modifies this
      ensures self == this
      ensures specData == old(specData)["path" := Str(path)]
    {
      specData := specData["path" := Str(path)];
      self := this;
    }

    /** Creates `metadata` when missing and sets `key` in it. */
    method SetMetadata(key: string, value: Json)
      modifies this
      ensures specData == Put(old(specData), ["metadata", key], value)
    {
      if "metadata" !in specData {
        specData := specData["metadata" := Obj(map[])];
      }
      specData := specData["metadata" := Obj(SubMap(specData, "metadata")[key := value])];
    }

    method Dimensions(dimensions: seq<int>) returns (self: N5SpecBuilder)
      modifies this
      ensures self == this
      ensures specData == Put(old(specData), ["metadata", "dimensions"], IntList(dimensions))
    {
      SetMetadata("dimensions", IntList(dimensions));
      self := this;
    }

    method BlockSize(blockSize: seq<int>) returns (self: N5SpecBuilder)
      modifies this
      ensures self == this
      ensures specData == Put(old(specData), ["metadata", "blockSize"], IntList(blockSize))
    {
      SetMetadata("blockSize", IntList(blockSize));
      self := this;
    }

    method DataType(dataType: string) returns (self: N5SpecBuilder)
      modifies this
      ensures self == this
      ensures specData == Put(old(specData), ["metadata", "dataType"], Str(dataType))
    {
      SetMetadata("dataType", Str(dataType));
      self := this;
    }

    method Compression(compression: map<string, Json>) returns (self: N5SpecBuilder)
      modifies this
      ensures self == this
      ensures specData == Put(old(specData), ["metadata", "compression"], Obj(compression))
    {
      SetMetadata("compression", Obj(compression));
      self := this;
    }

    method Axes(axes: seq<string>) returns (self: N5SpecBuilder)
      modifies this
      ensures self == this
      ensures specData == Put(old(specData), ["metadata", "axes"], Arr(seq(|axes|, i requires 0 <= i < |axes| => Str(axes[i]))))
    {
      SetMetadata("axes", Arr(seq(|axes|, i requires 0 <= i < |axes| => Str(axes[i]))));
      self := this;
    }

    /** Resolution values are Python floats, modelled by reals. */
    method Resolution(resolution: seq<real>) returns (self: N5SpecBuilder)
      modifies this
      ensures self == this
      ensures specData == Put(old(specData), ["metadata", "resolution"], Arr(seq(|resolution|, i requires 0 <= i < |resolution| => Float(resolution[i]))))
    {
      SetMetadata("resolution", Arr(seq(|resolution|, i requires 0 <= i < |resolution| => Float(resolution[i]))));
      self := this;
    }

    /** `build`: `N5Spec.model_validate` of the dictionary; the builder is unchanged. */
    method Build() returns (r: Result<N5.N5Spec, N5.N5Error>)
      ensures r == N5.ParseN5Spec(specData)
    {
      r := N5.ParseN5Spec(specData);
    }
  }

  /** A Zarr builder given a store, and an N5 builder given a store and a path, build accepted specs. */
  method DriverBuilderExamples() returns (z: Result<Zarr.ZarrSpec, Zarr.ZarrError>, n: Result<N5.N5Spec, N5.N5Error>)
    ensures z == Ok(Zarr.ZarrSpec(MemoryStore, "", Zarr.NoMetadata, None, None))
    ensures n == Ok(N5.N5Spec(FileStore("/data/n5/"), "dataset", None))
  {
    var zb := new ZarrSpecBuilder();
    var zb1 := zb.KvStore(KvString("memory"));
    z := zb1.Build();
    var nb := new N5SpecBuilder();
    var nb1 := nb.KvStore(KvString("/data/n5/"));
    var nb2 := nb1.Path("dataset");
    n := nb2.Build();
  }

  /** The documented chain: driver, memory store, dtype and shape. */
  method ChainExample() returns (d: map<string, Json>)
    ensures d == map["driver" := Str("zarr"), "kvstore" := Obj(MemoryStore),
                     "schema" := Obj(map["dtype" := Str("float32"), "domain" := Obj(map["shape" := IntList([100, 200])])])]
  {
    var b := new SpecBuilder();
    var b1 := b.Driver("zarr");
    var b2 := b1.KvStore(KvString("memory"));
    var b3 := b2.Dtype("float32");
    var b4 := b3.Shape([100, 200]);
    d := b4.BuildDict();
    assert ["schema", "dtype"][1..] == ["dtype"];
    assert ["schema", "domain", "shape"][1..] == ["domain", "shape"];
    assert ["domain", "shape"][1..] == ["shape"];
  }
}

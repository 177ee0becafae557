/**
 * The first-draft file key-value store: the path must be a non-empty string and is stored
 * normalised to an absolute path. Home-directory expansion and symlink resolution depend on
 * the file system, so the normaliser is a parameter that may fail.
 */
module FileKvStore {
  import opened Wrappers
  import opened Json

  datatype FileError = PathNotAString | PathEmpty | InvalidPath(path: string) | MissingPath | UnknownFields(names: set<string>) | DriverNotFile

  datatype FileKvStoreSpec = FileKvStoreSpec(path: string)

  /**
   * `validate_path`: a non-string is rejected, so is the empty string, and otherwise the
   * stored path is what `normalize` (`Path(p).expanduser().resolve()`) gives, its failure
   * being reported as an invalid path.
   */
  function ValidatePath(v: Json, normalize: string -> Option<string>): (r: Result<string, FileError>)
    ensures !v.Str? ==> r == Err(PathNotAString)
    ensures v == Str("") ==> r == Err(PathEmpty)
    ensures v.Str? && v.s != "" ==> (r.Ok? <==> normalize(v.s).Some?)
    ensures r.Ok? ==> v.Str? && v.s != "" && r.value == normalize(v.s).value
    ensures v.Str? && v.s != "" && normalize(v.s).None? ==> r == Err(InvalidPath(v.s))
  {
    if !v.Str? then Err(PathNotAString)
    else if v.s == "" then Err(PathEmpty)
    else match normalize(v.s)
      case None => Err(InvalidPath(v.s))
      case Some(p) => Ok(p)
  }

  const Fields: set<string> := {"driver", "path"}

  /** Building the record: driver defaults to "file", path is required, other keys are rejected. */
  function ParseFileKvStoreSpec(d: map<string, Json>, normalize: string -> Option<string>): (r: Result<FileKvStoreSpec, FileError>)
    ensures r.Ok? <==> d.Keys <= Fields && ("driver" in d ==> d["driver"] == Str("file"))
                       && "path" in d && ValidatePath(d["path"], normalize).Ok?
    ensures r.Ok? ==> ValidatePath(d["path"], normalize) == Ok(r.value.path)
    ensures !(d.Keys <= Fields) ==> r == Err(UnknownFields(d.Keys - Fields))
    ensures d.Keys <= Fields && "driver" in d && d["driver"] != Str("file") ==> r == Err(DriverNotFile)
    ensures d.Keys <= Fields && ("driver" in d ==> d["driver"] == Str("file")) && "path" !in d ==> r == Err(MissingPath)
  {
    if !(d.Keys <= Fields) then Err(UnknownFields(d.Keys - Fields))
    else if "driver" in d && d["driver"] != Str("file") then Err(DriverNotFile)
    else if "path" !in d then Err(MissingPath)
    else
      match ValidatePath(d["path"], normalize)
      case Err(e) => Err(e)
      case Ok(p) => Ok(FileKvStoreSpec(p))
  }

  /** A missing driver takes its default "file"; any other driver is rejected. */
  lemma DriverDefaultsToFile(p: string, normalize: string -> Option<string>)
    requires p != "" && normalize(p).Some?
    ensures ParseFileKvStoreSpec(map["path" := Str(p)], normalize) == Ok(FileKvStoreSpec(normalize(p).value))
    ensures ParseFileKvStoreSpec(map["driver" := Str("file"), "path" := Str(p)], normalize) == Ok(FileKvStoreSpec(normalize(p).value))
    ensures ParseFileKvStoreSpec(map["driver" := Str("memory"), "path" := Str(p)], normalize) == Err(DriverNotFile)
  {
  }

  /**
   * With an idempotent normaliser (resolving an already resolved path changes nothing),
   * validating a stored path again keeps it as it is.
   */
  lemma RevalidationStable(v: Json, normalize: string -> Option<string>)
    requires forall p :: normalize(p).Some? ==> normalize(p).value != "" && normalize(normalize(p).value) == normalize(p)
    requires ValidatePath(v, normalize).Ok?
    ensures ValidatePath(Str(ValidatePath(v, normalize).value), normalize) == ValidatePath(v, normalize)
  {
  }

  /** `get_driver_kind`. */
  const DriverKind := "kvstore"
}

/**
 * Where the saved artifacts are found (server/util.py, lines 62-111).
 * The file system is abstract: the project root is the set of its
 * sub-directories, and a folder is the set of names that are regular files
 * in it together with the order in which a directory listing returns its
 * entries.
 */
module ArtifactPaths {
  import opened Wrappers
  import opened Builtins

  /** A directory: the names that are files in it, and its listing in listing order. */
  datatype Folder = Folder(files: set<string>, listing: seq<string>)

  /** The project root: its sub-directories by name. */
  datatype ProjectRoot = ProjectRoot(folders: map<string, Folder>)

  /** `os.path.join(dir, name)`, kept as its two parts. */
  datatype ArtifactPath = ArtifactPath(dir: string, name: string)

  /** The `FileNotFoundError`s raised while resolving artifacts. */
  datatype ArtifactError =
    | ArtifactDirectoryNotFound
    | ArtifactFileNotFound(preferred: seq<string>, dir: string)

  const PreferredDir: string := "artifacts"
  const LegacyDir: string := "model"

  const ColumnsNames: seq<string> := ["columns.json"]
  const ModelNames: seq<string> :=
    ["banglore_home_prices_model(1).pickle", "banglore_home_prices_model (1).pickle"]
  const ModelPrefix: string := "banglore_home_prices_model"

  /**
   * `_resolve_artifacts_dir`: the `artifacts` directory if it exists, else
   * the legacy `model` directory, else `FileNotFoundError`.
   */
  function ResolveArtifactsDir(root: ProjectRoot): (r: Result<string, ArtifactError>)
    ensures r.Success? ==> r.value in root.folders
    ensures r.Success? <==> PreferredDir in root.folders || LegacyDir in root.folders
    ensures PreferredDir in root.folders ==> r == Success(PreferredDir)
    ensures r == Success(LegacyDir) <==> PreferredDir !in root.folders && LegacyDir in root.folders
    ensures r.Failure? ==> r.error == ArtifactDirectoryNotFound
  {
    if PreferredDir in root.folders then Success(PreferredDir)
    else if LegacyDir in root.folders then Success(LegacyDir)
    else Failure(ArtifactDirectoryNotFound)
  }

  /** The position of the first name in `names` that is an existing file. */
  function FirstExisting(names: seq<string>, files: set<string>): (r: Option<nat>)
    ensures r.Some? ==> r.value < |names| && names[r.value] in files
    ensures r.Some? ==> forall j :: 0 <= j < r.value ==> names[j] !in files
    ensures r.None? ==> forall j :: 0 <= j < |names| ==> names[j] !in files
  {
    if names == [] then None
    else if names[0] in files then Some(0)
    else match FirstExisting(names[1..], files)
      case Some(i) => Some(i + 1)
      case None => None
  }

  /** An entry the prefix scan accepts: it starts with the hint and is a file. */
  predicate PrefixMatch(entry: string, hint: string, files: set<string>)
  {
    StartsWith(entry, hint) && entry in files
  }

  /** The position of the first listed entry the prefix scan accepts. */
  function FirstPrefixed(listing: seq<string>, hint: string, files: set<string>): (r: Option<nat>)
    ensures r.Some? ==> r.value < |listing| && PrefixMatch(listing[r.value], hint, files)
    ensures r.Some? ==> forall j :: 0 <= j < r.value ==> !PrefixMatch(listing[j], hint, files)
    ensures r.None? ==> forall j :: 0 <= j < |listing| ==> !PrefixMatch(listing[j], hint, files)
  {
    if listing == [] then None
    else if PrefixMatch(listing[0], hint, files) then Some(0)
    else match FirstPrefixed(listing[1..], hint, files)
      case Some(i) => Some(i + 1)
      case None => None
  }

  /**
   * What `_resolve_artifact_file` returns inside directory `dir`: the first
   * preferred name that is a file; failing that, when the hint is non-empty
   * (a `None` hint is the empty string here, both are falsy), the first listed
   * entry starting with the hint that is a file; otherwise `FileNotFoundError`.
   */
  function ResolvedFile(dir: string, folder: Folder, preferred: seq<string>, hint: string)
    : (r: Result<ArtifactPath, ArtifactError>)
    ensures r.Success? ==> r.value.dir == dir && r.value.name in folder.files
    ensures r.Failure? ==> r.error == ArtifactFileNotFound(preferred, dir)
  {
    match FirstExisting(preferred, folder.files)
    case Some(i) => Success(ArtifactPath(dir, preferred[i]))
    case None =>
      if hint == "" then Failure(ArtifactFileNotFound(preferred, dir))
      else match FirstPrefixed(folder.listing, hint, folder.files)
        case Some(k) => Success(ArtifactPath(dir, folder.listing[k]))
        case None => Failure(ArtifactFileNotFound(preferred, dir))
  }

  /** `_resolve_artifact_file`: the two early-return loops, proved to compute `ResolvedFile`. */
  method ResolveArtifactFile(dir: string, folder: Folder, preferred: seq<string>, hint: string)
    returns (r: Result<ArtifactPath, ArtifactError>)
    ensures r == ResolvedFile(dir, folder, preferred, hint)
  {
    for i := 0 to |preferred|
      invariant forall j :: 0 <= j < i ==> preferred[j] !in folder.files
    {
      if preferred[i] in folder.files {
        ExistingIsFirst(preferred, folder.files, i);
        return Success(ArtifactPath(dir, preferred[i]));
      }
    }
    if hint != "" {
      for k := 0 to |folder.listing|
        invariant forall j :: 0 <= j < k ==> !PrefixMatch(folder.listing[j], hint, folder.files)
      {
        var entry := folder.listing[k];
        if StartsWith(entry, hint) {
          if entry in folder.files {
            PrefixedIsFirst(folder.listing, hint, folder.files, k);
            return Success(ArtifactPath(dir, entry));
          }
        }
      }
    }
    return Failure(ArtifactFileNotFound(preferred, dir));
  }

  /** A preferred name that is a file, with none before it, is the one `FirstExisting` finds. */
  lemma ExistingIsFirst(names: seq<string>, files: set<string>, i: nat)
    requires i < |names| && names[i] in files
    requires forall j :: 0 <= j < i ==> names[j] !in files
    ensures FirstExisting(names, files) == Some(i)
  {
  }

  /** A listed match with no match before it is the one `FirstPrefixed` finds. */
  lemma PrefixedIsFirst(listing: seq<string>, hint: string, files: set<string>, k: nat)
    requires k < |listing| && PrefixMatch(listing[k], hint, files)
    requires forall j :: 0 <= j < k ==> !PrefixMatch(listing[j], hint, files)
    ensures FirstPrefixed(listing, hint, files) == Some(k)
  {
  }

  /** The earliest preferred name that is a file wins, whatever the listing holds. */
  lemma PreferredNameWins(dir: string, folder: Folder, preferred: seq<string>, hint: string, i: nat)
    requires i < |preferred| && preferred[i] in folder.files
    requires forall j :: 0 <= j < i ==> preferred[j] !in folder.files
    ensures ResolvedFile(dir, folder, preferred, hint) == Success(ArtifactPath(dir, preferred[i]))
  {
  }

  /**
   * The prefix scan is used only when no preferred name is a file, and then
   * returns the first listed entry that starts with the hint and is a file.
   */
  lemma PrefixScanFallback(dir: string, folder: Folder, preferred: seq<string>, hint: string)
    ensures ResolvedFile(dir, folder, preferred, hint).Success? &&
            ResolvedFile(dir, folder, preferred, hint).value.name !in preferred ==>
              hint != "" && FirstPrefixed(folder.listing, hint, folder.files).Some?
    ensures (forall j :: 0 <= j < |preferred| ==> preferred[j] !in folder.files) && hint != "" ==>
      match FirstPrefixed(folder.listing, hint, folder.files)
      case Some(k) =>
        ResolvedFile(dir, folder, preferred, hint) == Success(ArtifactPath(dir, folder.listing[k]))
      case None =>
        ResolvedFile(dir, folder, preferred, hint).Failure?
  {
  }

  /** Resolution fails exactly when no preferred name is a file and the prefix scan finds nothing. */
  lemma ResolvedFileFailsIff(dir: string, folder: Folder, preferred: seq<string>, hint: string)
    ensures ResolvedFile(dir, folder, preferred, hint).Failure? <==>
      (forall j :: 0 <= j < |preferred| ==> preferred[j] !in folder.files) &&
      (hint == "" ||
       forall j :: 0 <= j < |folder.listing| ==> !PrefixMatch(folder.listing[j], hint, folder.files))
  {
  }

  /** The three module-level constants resolved when server/util.py is imported. */
  datatype StartupPaths = StartupPaths(artifactsDir: string, columnsPath: ArtifactPath, modelPath: ArtifactPath)

  /**
   * `ARTIFACTS_DIR`, `COLUMNS_PATH` and `SAVED_MODEL_PATH`, resolved in that
   * order; the first `FileNotFoundError` aborts the import.
   */
  method ResolveStartupPaths(root: ProjectRoot) returns (r: Result<StartupPaths, ArtifactError>)
    ensures ResolveArtifactsDir(root).Failure? ==> r == Failure(ArtifactDirectoryNotFound)
    ensures ResolveArtifactsDir(root).Success? ==>
      var dir := ResolveArtifactsDir(root).value;
      var columns := ResolvedFile(dir, root.folders[dir], ColumnsNames, "");
      var model := ResolvedFile(dir, root.folders[dir], ModelNames, ModelPrefix);
      if columns.Failure? then r == Failure(columns.error)
      else if model.Failure? then r == Failure(model.error)
      else r == Success(StartupPaths(dir, columns.value, model.value))
    ensures r.Success? ==>
      var folder := root.folders[r.value.artifactsDir];
      ResolveArtifactsDir(root) == Success(r.value.artifactsDir) &&
      r.value.columnsPath == ArtifactPath(r.value.artifactsDir, "columns.json") &&
      "columns.json" in folder.files &&
      r.value.modelPath.dir == r.value.artifactsDir &&
      r.value.modelPath.name in folder.files &&
      (ModelNames[0] in folder.files ==> r.value.modelPath.name == ModelNames[0]) &&
      (ModelNames[0] !in folder.files && ModelNames[1] in folder.files ==>
         r.value.modelPath.name == ModelNames[1]) &&
      (r.value.modelPath.name !in ModelNames ==> StartsWith(r.value.modelPath.name, ModelPrefix))
  {
    var resolved := ResolveArtifactsDir(root);
    if resolved.Failure? {
      return Failure(resolved.error);
    }
    var dir := resolved.value;
    var folder := root.folders[dir];
    var columns := ResolveArtifactFile(dir, folder, ColumnsNames, "");
    if columns.Failure? {
      return Failure(columns.error);
    }
    var model := ResolveArtifactFile(dir, folder, ModelNames, ModelPrefix);
    if model.Failure? {
      return Failure(model.error);
    }
    PrefixScanFallback(dir, folder, ModelNames, ModelPrefix);
    if ModelNames[0] in folder.files {
      PreferredNameWins(dir, folder, ModelNames, ModelPrefix, 0);
    } else if ModelNames[1] in folder.files {
      PreferredNameWins(dir, folder, ModelNames, ModelPrefix, 1);
    }
    return Success(StartupPaths(dir, columns.value, model.value));
  }
}

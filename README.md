# Bangalore house-price estimator: artifact loading and feature encoding

This project models the core of a small price-estimation server, the module
`server/util.py`. It covers four parts:

- **Finding the artifacts.** The artifacts directory is `artifacts`, or the legacy `model` directory when `artifacts` is missing.
  Each artifact file is the first preferred name that exists, or else, when a prefix hint is given, the first listed entry that starts with the hint and is a file.
- **Loading.** The module keeps three globals: the column list, the location names derived from it and the trained model.
  Loading re-reads the columns every time but loads the model only while it is still unset.
- **Encoding a request.** A location and three numbers become a vector with one slot per schema column.
  Square footage, bathrooms and bedrooms go in slots 0-2. A 1 goes at the first column equal to the lower-cased location.
- **The scikit-learn version gate.** This decides whether a pickled `LinearRegression` state loses its `positive` entry.

Files:

- `wrappers.dfy`: `Option` and `Result`. A `Failure` is a Python exception propagating out of the call.
- `builtins.dfy`: the Python built-ins the module relies on: `str.lower`, `str.startswith`, `str.split`, `int()` and `list.index`, with their exceptions.
- `artifacts.dfy`: `_resolve_artifacts_dir`, `_resolve_artifact_file` and the three import-time path constants, over an abstract file system.
- `estimator.dfy`: the encoding in `get_estimated_price`. It is an array method proved equal to a specification function, and lemmas state what that function promises.
- `store.dfy`: a class holding the three module globals, with `load_saved_artifacts`, the two getters and `get_estimated_price` as a whole.
- `version_gate.dfy`: the version check in `patched_setstate`.

Three behaviours of the code that the model keeps:

- `list.index` at server/util.py:115 searches the whole column list, numeric columns included.
  Line 124 runs after lines 121-122, so a location that lower-cases to `bath` or `bhk` overwrites slot 1 or 2 with 1 (`Estimator.NumericColumnOverwritten`).
- Lines 155-156 assign the new columns before the model load at lines 158-203, which can raise.
  A failed model load therefore leaves the new columns in place (`ArtifactStore.Store.Load`).
- Lines 198, 200 and 203 re-raise the underlying exception unwrapped.
  The model passes through the error it was given.

## Model

| member | source | states |
|---|---|---|
| `Builtins.Lower` | server/util.py:115 | `location.lower()` keeps the length of the location string |
| `Builtins.LowerAt` | server/util.py:115 | every character of the lower-cased string is the ASCII case fold of the character at the same position |
| `Builtins.SameIgnoringCaseIffSameLower` | server/util.py:115 | two locations spelled alike up to ASCII case, position by position, lower-case to the same key, and conversely |
| `Builtins.StartsWith` | server/util.py:95 | `entry.startswith(prefix)` holds exactly when the prefix is no longer than the entry and agrees with it character by character |
| `Builtins.ListIndex` | server/util.py:115 | `list.index` returns the first position holding the key, or raises `ValueError` exactly when the key is absent |
| `Builtins.ListIndexFirst` | server/util.py:115 | a position holding the key with no earlier occurrence is the one `list.index` returns |
| `Builtins.Split` | server/util.py:36 | `version.split('.')` yields at least one part, and no part contains the separator |
| `Builtins.JoinSplit` | server/util.py:36 | joining the split parts with the separator gives back the version string |
| `Builtins.SplitSeveralIffSeparator` | server/util.py:36 | `version.split('.')` has more than one part exactly when the version contains a dot |
| `Builtins.SplitHead` | server/util.py:36 | a separator-free prefix followed by a separator becomes the first part |
| `Builtins.SplitNoSeparator` | server/util.py:36 | a separator-free string splits into itself alone |
| `Builtins.ParseInt` | server/util.py:36 | `int(x)` succeeds exactly on a non-empty digit run with an optional leading `+` or `-`, and otherwise raises `ValueError`. The value is the decimal value of the digits, negated after `-` |
| `Builtins.NatToString` | server/util.py:36 | the decimal spelling of a number is a non-empty run of digits without a dot |
| `Builtins.ParseNatToString` | server/util.py:36 | `int(str(n)) == n` for every natural number |
| `ArtifactPaths.ResolveArtifactsDir` | server/util.py:62-79 | prefers `artifacts` and falls back to `model`. It fails with the directory error exactly when neither exists, and never names a directory that does not exist |
| `ArtifactPaths.FirstExisting` | server/util.py:88-91 | the first-loop scan finds the earliest preferred name that is a file, or proves that none is |
| `ArtifactPaths.FirstPrefixed` | server/util.py:93-98 | the second-loop scan finds the earliest listed entry that starts with the hint and is a file, or proves that none does |
| `ArtifactPaths.ResolvedFile` | server/util.py:82-102 | a resolved artifact lies in the artifacts directory and is an existing file; failure carries the preferred names and the directory |
| `ArtifactPaths.ResolveArtifactFile` | server/util.py:82-102 | the two early-return loops compute exactly `ResolvedFile` |
| `ArtifactPaths.ExistingIsFirst` | server/util.py:88-91 | an existing preferred name with none existing before it is the one the first loop returns |
| `ArtifactPaths.PrefixedIsFirst` | server/util.py:93-98 | a matching listed entry with no match before it is the one the second loop returns |
| `ArtifactPaths.PreferredNameWins` | server/util.py:88-91 | the earliest preferred name that is a file is returned, whatever the directory listing holds |
| `ArtifactPaths.PrefixScanFallback` | server/util.py:93-98 | a non-preferred result comes only from the prefix scan, which is reached only with a non-empty hint. When no preferred name exists, the result is the first listed entry that starts with the hint and is a file, or failure |
| `ArtifactPaths.ResolvedFileFailsIff` | server/util.py:88-102 | resolution fails exactly when no preferred name is a file and the prefix scan (if enabled) finds nothing |
| `ArtifactPaths.ResolveStartupPaths` | server/util.py:105-111 | import resolves the directory, then `columns.json`, then the model file, and fails with the error of the first resolution that fails. On success both files exist in the resolved directory. The model file is `banglore_home_prices_model(1).pickle` when present, else `banglore_home_prices_model (1).pickle`, else a file found by the prefix scan |
| `Estimator.LocationIndex` | server/util.py:114-117 | `loc_index` is -1 exactly when the lower-cased location is not a column, and otherwise is its first column |
| `Estimator.Zeros` | server/util.py:119 | `np.zeros(n)` has n entries, all 0 |
| `Estimator.NumericVector` | server/util.py:119-122 | after the three numeric writes the vector is `[sqft, bath, bhk]` followed by zeros |
| `Estimator.Encoding` | server/util.py:113-124 | the encoded vector has one entry per schema column |
| `Estimator.EncodeFeatures` | server/util.py:113-124 | the array filled in place equals `Encoding`. Fewer than three columns raise `IndexError` |
| `Estimator.EncodingAt` | server/util.py:119-124 | each slot is 1 at the location's column, else sqft, bath or bhk in slots 0-2, else 0; the one-hot write comes last and wins |
| `Estimator.UnwrittenSlotsZero` | server/util.py:119-124 | every slot from index 3 on whose column is not the lower-cased location is 0 |
| `Estimator.NumericSlotsKept` | server/util.py:115-124 | unless the lower-cased location names one of the first three columns, slots 0-2 hold sqft, bath and bhk |
| `Estimator.OneHotAtFirstOccurrence` | server/util.py:115-124 | the first occurrence of the lower-cased location holds 1, even when it is a numeric slot, and the vector is otherwise the numeric one |
| `Estimator.AbsentLocation` | server/util.py:114-123 | an unknown location raises nothing, and the vector is `[sqft, bath, bhk]` followed by zeros |
| `Estimator.AtMostOneHot` | server/util.py:119-124 | at most one slot from index 3 on is non-zero, and that slot is the location's column holding 1 |
| `Estimator.CaseInsensitive` | server/util.py:115 | locations equal up to ASCII case produce identical vectors |
| `Estimator.NumericColumnOverwritten` | server/util.py:120-124 | the location "Bath" puts 1 in the bathroom slot and sets no location bit |
| `Estimator.ScriptLastColumn` | server/util.py:225 | on a five-column schema, "Kalhalli" with 1000 sqft and 2 bedrooms and bathrooms encodes as `[1000, 2, 2, 0, 1]` |
| `Estimator.ScriptUnknownLocation` | server/util.py:226 | on the same schema, "Ejipura" encodes with no location bit: `[1000, 2, 2, 0, 0]` |
| `ArtifactStore.LocationsOf` | server/util.py:156 | `columns[3:]` holds the columns from index 3 on, in order, and is empty when there are at most three columns |
| `ArtifactStore.Store.constructor` | server/util.py:57-59 | after import the columns, locations and model are all unset |
| `ArtifactStore.Store.Load` | server/util.py:148-158 | a successful columns read replaces the columns and their location view. A model already loaded stays; an unset one is loaded or the load error propagates. A failed columns read changes nothing |
| `ArtifactStore.Store.LocationNames` | server/util.py:214-215 | after a load the names are exactly the columns from index 3 on, in order; before it they are unset |
| `ArtifactStore.Store.DataColumns` | server/util.py:217-218 | returns the stored column list itself: after a load, exactly the columns the load read. It is set exactly when the location names are, and the names are its tail |
| `ArtifactStore.Store.EstimatedPrice` | server/util.py:113-135 | before a load it raises `TypeError`, with too few columns `IndexError`, without a model `AttributeError`; otherwise it is the model's prediction on `Encoding` |
| `ArtifactStore.ReloadKeepsState` | server/util.py:154-158 | loading the same columns twice gives the same column list and location names after each load, and the first loaded model survives the second load |
| `VersionGate.ParseAll` | server/util.py:36 | the list comprehension parses each part in place. It raises `ValueError` exactly when some part is not an integer literal |
| `VersionGate.VersionParts` | server/util.py:36 | the parsed version has two integers when the version contains a dot and one otherwise, each the value of the matching split part. It raises `ValueError` exactly when one of the first two parts is not an integer literal |
| `VersionGate.ParseCons` | server/util.py:36 | the comprehension parses the first part, then the rest |
| `VersionGate.DropsPositive` | server/util.py:36-43 | an unparsable version raises `ValueError`, and the one-part version `0` raises `IndexError`. Otherwise `positive` is dropped exactly when the version is below 0.24 or the object lacks the attribute |
| `VersionGate.PatchedState` | server/util.py:30-43 | the state passed on is the original, or the original without `positive`, with every value unchanged. Without a `positive` key nothing is parsed and the state passes unchanged |
| `VersionGate.GateOnWellFormedVersion` | server/util.py:36-43 | for a version `major.minor[.rest]`, `positive` is dropped exactly when the version is below 0.24 or the object lacks the attribute |
| `VersionGate.GateOnSinglePartVersion` | server/util.py:36-43 | a one-part version raises `IndexError` when its major is 0 (the minor is read only then). Otherwise the attribute alone decides |
| `VersionGate.UnparsableMinorRaises` | server/util.py:36 | a version such as "1.4rc1" makes `int` raise `ValueError` |

## Left out

- `Builtins.Lower` folds only ASCII letters. Python's `str.lower` also folds non-ASCII letters, which the model does not cover.
- `Builtins.ParseInt` accepts an optional sign and ASCII digits only. Python's `int` also strips surrounding whitespace and accepts underscores between digits and non-ASCII digits.
- `ArtifactStore.Store.EstimatedPrice`: rounding to two decimals, the numpy vector type and the floating-point prediction are left out. The model is an opaque type, and its `predict` is a function parameter applied to the exact encoded vector.
- `ArtifactStore.Store.Load`: the model is not deserialized. Strategies that try joblib, then pickle, then a retry that patches `positive` are reduced to one given outcome of loading the model file. Reading and parsing `columns.json` is reduced to a given outcome too.
- The setting of a missing `positive` attribute on a loaded model (lines 126-132, 205-210) and the retries on a `positive` error during prediction (lines 136-145) are left out. They patch an object whose code is not part of this model.
- The `sys.modules` alias for old scikit-learn module paths (lines 7-20) and the call to the original `__setstate__` (lines 45-50) are left out. Both are import machinery of a library that is not part of this model.
- `ArtifactPaths`: real file-system calls are abstract. `os.path.isdir` becomes membership in the project root's sub-directories. `os.path.isfile` becomes membership in a folder's file set. `os.listdir` becomes a given listing order. `os.path.join` is kept as a pair of directory and name, and the absolute project-root path is not computed.
- `ArtifactPaths.Folder` does not tie a folder's files to its listing. A real `os.listdir` lists every file exactly once, and its own errors (line 94) are not modelled. The resolution properties are stated for every folder, real or not, so they also hold for real folders.
- `print` logging is left out.
- The HTTP layer (`server/server.py`) and the browser code (`app.js`) are not part of this model: routes, request parsing, CORS headers and page serving are framework glue.
- The script block's calls with "1st Phase JP Nagar" (lines 223-224) have no concrete lemma. `Estimator.OneHotAtFirstOccurrence` and `Estimator.CaseInsensitive` cover them in general.

# ModelManager: registry and cache of text-generation models

This project models the model lifecycle manager of an MCQ-generation service
(`app/ml_models/model_manager.py`) and proves what it promises. The `ModelManager` holds two
dictionaries:

- the **registry**, from model name to `{path, type}`. It is read from the JSON file
  `model_registry.json` at construction. `scan_models` upserts into it, one entry per
  sub-directory of the base directory that holds a `models` sub-path, and then writes the
  whole registry back to the file.
- the **cache**, from model name to a loaded `(model, tokenizer)` pair. It starts empty and is
  filled by `load_model`. That call fails on an unregistered name, returns a cached pair
  unchanged, and otherwise dispatches on the record's type. The three known types,
  `question_generation`, `answer_generation` and `distractor_generation`, all load a T5 model
  and tokenizer from the record's path. Any other type raises "Unsupported model type".

Modules, one per component:

- `Wrappers` (`wrappers.dfy`): `Option` and `Result`. An `Err` stands for a raised exception.
- `Files` (`files.dfy`): POSIX `os.path.join`, and a `Snapshot` of the file system. The
  snapshot is an explicit input of each operation and stands for `os.listdir`,
  `os.path.isdir`, `os.path.exists` and the directories from which `from_pretrained`
  succeeds.
- `ModelRegistry` (`registry.dfy`): the registry keeps insertion order the way a Python dict
  does, as distinct names in order plus a name to record map. The folder filter, the scan loop
  as a specification function, and lemmas about it: how records are upserted, that order is
  kept, and that a scan is idempotent.
- `RegistryStore` (`registry_store.dfy`): the JSON file as a class whose contents are
  `None` (no file) or the registry it holds. `Load` is `_load_registry`; `Save` is the write
  done by `_save_registry`.
- `ModelLoading` (`loading.dfy`): the loaded-model handles, the errors, and `LoadOutcome`,
  which specifies one `load_model` call. The lemmas cover the unregistered name, the cache
  hit, the unknown type and the fresh load.
- `ModelManagement` (`model_manager.dfy`): the class `ModelManager`, with fields `registry`
  and `models` and the object invariant "every cached name is registered". Its methods
  `ScanModels` and `LoadModel` mutate those fields and are proved against the specification
  functions above. Lemmas relating scans and loads sit beside the class.

## Model

| member | source | states |
|---|---|---|
| `ModelManagement.ModelManager.constructor` | app/ml_models/model_manager.py:7-10 | the base directory is the given one, `app/ml_models` by default; the registry is the file's contents, or empty when no file exists; the cache is empty; the invariant "cached names are registered" holds |
| `ModelManagement.DefaultConstruction` | app/ml_models/model_manager.py:7-17 | a manager built without a base directory uses `app/ml_models`, and with no registry file it lists no names |
| `RegistryStore.RegistryFile.Load` | app/ml_models/model_manager.py:12-17 | returns the empty registry when the file does not exist, otherwise exactly the registry the file holds |
| `RegistryStore.RegistryFile.Save` | app/ml_models/model_manager.py:19-22 | the file afterwards holds exactly the given registry, overwriting what was there |
| `ModelManagement.ModelManager.SaveRegistry` | app/ml_models/model_manager.py:19-22 | the file afterwards holds the manager's whole current registry |
| `RegistryStore.SaveThenLoad` | app/ml_models/model_manager.py:12-22 | save followed by load gives back exactly the registry saved, name order included |
| `Files.JoinShape` | app/ml_models/model_manager.py:28 | the POSIX join ends with its second part; an absolute second part replaces the first; otherwise the first part begins the result, with one '/' inserted only when it is non-empty and does not already end in '/' |
| `ModelRegistry.ModelPathShape` | app/ml_models/model_manager.py:28 | for a base directory not ending in '/' and a folder name without '/', the models path is `base/folder/models` |
| `ModelRegistry.ModelFolders` | app/ml_models/model_manager.py:26 | a name is kept exactly when it is a listed entry that `os.path.isdir` accepts after joining it to the base; the result is no longer than the listing |
| `ModelRegistry.ScanFolders` | app/ml_models/model_manager.py:27-33 | the scan loop never removes a registered name, and the old names stay first, in their order |
| `ModelRegistry.Scan` | app/ml_models/model_manager.py:26-33 | the scan fails, naming the base directory, exactly when that directory cannot be listed; a successful scan removes no name and keeps the old names first, in their order |
| `ModelRegistry.ScanFoldersRecords` | app/ml_models/model_manager.py:27-33 | after the scan loop a name is registered exactly when it was before or is a scanned folder with a `models` sub-path. Such a folder maps to `{path: join(base, folder, "models"), type: folder}`; every other entry keeps its old record |
| `ModelRegistry.ScanFoldersOrder` | app/ml_models/model_manager.py:27-33 | the scan loop keeps the old names in their order as a prefix; every name appended after them is a discovered folder that was not registered before |
| `ModelRegistry.ScanFoldersFixpoint` | app/ml_models/model_manager.py:27-33 | when every discovered folder already has its discovered record, the scan loop leaves the registry identical, order included |
| `ModelRegistry.ScanIdempotent` | app/ml_models/model_manager.py:24-34 | scanning the result of a successful scan against the same file system gives the same registry again |
| `ModelRegistry.ScanUpsert` | app/ml_models/model_manager.py:26-33 | after a successful scan no name has been removed and old names keep their order. Each listed sub-directory with `models` maps to its discovered record; every entry not discovered is unchanged |
| `ModelManagement.ModelManager.ScanModels` | app/ml_models/model_manager.py:24-34 | on an unlistable base directory it fails and changes nothing, not even the file. Otherwise the new registry is the scan of the old one and is persisted whole. The cache is never changed, no registered name is removed, and the invariant is kept |
| `ModelManagement.ModelManager.ListRegisteredModels` | app/ml_models/model_manager.py:36-38 | returns every registered name exactly once: a name occurs exactly when it is registered, with no repetitions, and the length equals the registry size |
| `ModelLoading.FromPretrained` | app/ml_models/model_manager.py:53-54 | the loader succeeds exactly when the path's artifacts are readable, and the model and tokenizer both come from that path; otherwise the error carries the path |
| `ModelLoading.LoadOutcome` | app/ml_models/model_manager.py:40-67 | a failed call leaves the cache unchanged. The cache only grows, by at most the requested name, and never replaces an entry. On success the name is registered and the cache holds exactly the returned pair under it |
| `ModelLoading.LoadUnregistered` | app/ml_models/model_manager.py:42-43 | the call raises "not registered" for the name exactly when the name is not in the registry |
| `ModelLoading.LoadCacheHit` | app/ml_models/model_manager.py:44-45 | a registered, cached name returns the cached pair whatever the file system holds, and the cache is unchanged |
| `ModelLoading.LoadTwice` | app/ml_models/model_manager.py:44-67 | after a successful load, a second load of the same name against any file system returns the same pair and leaves the cache as the first call left it |
| `ModelLoading.LoadUnsupported` | app/ml_models/model_manager.py:51-64 | a registered, uncached name raises "Unsupported model type" with its own type exactly when that type is none of the three known ones, and then the cache is unchanged |
| `ModelLoading.LoadFresh` | app/ml_models/model_manager.py:47-67 | for a registered, uncached name of known type with readable artifacts, the call returns the pair loaded from the record's path and adds just that entry to the cache. With unreadable artifacts the loader's error propagates and the cache is unchanged |
| `ModelLoading.LoadErrorMessages` | app/ml_models/model_manager.py:42-64 | an unregistered name's error reads `Model '<name>' is not registered.`; a registered, uncached name of unknown type gives `Unsupported model type: <type>` |
| `ModelLoading.LoadKeepsCacheRegistered` | app/ml_models/model_manager.py:42-66 | if every cached name is registered before a load, the same holds after it |
| `ModelManagement.ModelManager.LoadModel` | app/ml_models/model_manager.py:40-67 | the call's result and new cache are exactly `LoadOutcome` of the old state; the registry never changes. An unregistered name fails and a cached name is returned as cached, both leaving the cache alone. Any failure leaves the cache unchanged; a success adds exactly the returned pair under the name. The invariant is kept |
| `ModelManagement.ScanKeepsCacheRegistered` | app/ml_models/model_manager.py:26-34 | a successful scan keeps every cached name registered |
| `ModelManagement.RescanKeepsCachedPair` | app/ml_models/model_manager.py:24-45 | a re-scan does not invalidate the cache: a name cached before a scan still loads its old pair afterwards, even when the scan gave it a new path |
| `ModelManagement.ScannedUnknownFolderUnsupported` | app/ml_models/model_manager.py:30-64 | a scanned sub-directory with `models` whose name is not a known type gets registered, but loading it raises "Unsupported model type" naming it, and the cache is unchanged |
| `ModelManagement.ScanScenario` | app/ml_models/model_manager.py:26-33 | with `question_generation/models` and an `unknown_kind` folder without `models`, scanning an empty registry registers only `question_generation`, at `app/ml_models/question_generation/models` and with that name as its type |

## Left out

- Real model loading: `T5ForConditionalGeneration.from_pretrained` and
  `T5Tokenizer.from_pretrained` are foreign calls. They are modelled by `FromPretrained`,
  which succeeds on the directories the `Snapshot` marks as loadable and returns handles
  tagged by their path. A model that loads while its tokenizer fails is not told apart from
  two failures.
- File-system calls: `os.listdir`, `os.path.isdir` and `os.path.exists` are I/O and are read
  from the `Snapshot` input. The snapshot's sets are not required to agree with each other
  (for instance, that every directory exists), because the code never relies on that.
- JSON serialisation: the file holds the registry it encodes. A file with malformed JSON, or
  whose records lack `path` or `type` (the later `KeyError`), is not modelled, since a
  registry value always has both fields. The `indent=4` layout is not modelled.
- Failures while writing the registry file (`open` or `json.dump` raising) are not modelled.
- Exception classes: Python raises `ValueError` for both load errors. They are the
  `LoadError` constructors `NotRegistered` and `UnsupportedType`, and `Message` gives their
  text. The loader's own exceptions are `ArtifactsUnreadable`.
- Concurrency: the code has no locks and no threads, so none are modelled. Operations are
  taken to run one at a time; two concurrent first loads of one name are not modelled.
- `api_gateway.py`, `trainer.py` and `main.py` are not part of this model. They are HTTP
  routing, a wrapper around a third-party training loop, and a demo script.
- Order: `list_registered_models` returns the names in insertion order, as a Python dict
  keeps them, and the registry models that order. The cache is never listed, so its order is
  not modelled.

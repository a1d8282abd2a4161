/**
 `ModelManager`: the registry of known models and the cache of loaded ones, with the
 operations that scan, list, persist and load.
 */
module ModelManagement {
  import opened Wrappers
  import opened Files
  import opened ModelRegistry
  import opened RegistryStore
  import opened ModelLoading

  /** The default `base_dir` of the constructor. */
  const DefaultBaseDir: string := "app/ml_models"

  class ModelManager {
    const baseDir: string
    /** The registry file on disk, shared with whoever else reads or writes it. */
    const store: RegistryFile
    var registry: Registry
    var models: Cache

    /** Only registered names are ever cached. */
    ghost predicate Valid()
      reads this
    {
      models.Keys <= registry.records.Keys
    }

    /**
     `__init__`: the base directory defaults to `app/ml_models`; the registry is what the file
     holds (empty without a file); the cache is empty.
     */
    constructor (store: RegistryFile, baseDir: string := DefaultBaseDir)
      ensures Valid()
      ensures this.baseDir == baseDir && this.store == store
      ensures store.stored.None? ==> registry.names == [] && registry.records == map[]
      ensures store.stored.Some? ==> registry == store.stored.value
      ensures models == map[]
    {
      this.baseDir := baseDir;
      this.store := store;
      var r := store.Load();
      registry := r;
      models := map[];
    }

    /** `_save_registry`: the file now holds the whole registry. */
    method SaveRegistry()
      modifies store
      ensures store.stored == Some(registry)
    {
      store.Save(registry);
    }

    /**
     `scan_models`: upsert every sub-directory of the base directory that holds `models`, then
     persist. A base directory that cannot be listed raises before anything changes. The cache
     is never touched and no registered name is removed.
     */
    method ScanModels(fs: Snapshot) returns (outcome: Result<(), ScanError>)
      requires Valid()
      modifies this, store
      ensures Valid()
      ensures models == old(models)
      ensures old(registry).records.Keys <= registry.records.Keys
      ensures outcome.Err? ==> outcome.error == ListingFailed(baseDir) && registry == old(registry) && unchanged(store)
      ensures outcome.Ok? ==> Scan(old(registry), baseDir, fs) == Ok(registry) && store.stored == Some(registry)
      ensures outcome.Ok? <==> baseDir in fs.listings
    {
      if baseDir !in fs.listings {
        return Err(ListingFailed(baseDir));
      }
      var folders := ModelFolders(baseDir, fs.listings[baseDir], fs);
      var i := 0;
      while i < |folders|
        invariant 0 <= i <= |folders|
        invariant ScanFolders(registry, baseDir, folders[i..], fs) == ScanFolders(old(registry), baseDir, folders, fs)
        invariant old(registry).records.Keys <= registry.records.Keys
        invariant models == old(models)
      {
        var folder := folders[i];
        var modelPath := Join(Join(baseDir, folder), "models");
        if modelPath in fs.existing {
          registry := Put(registry, folder, ModelRecord(modelPath, folder));
        }
        assert folders[i..][1..] == folders[i + 1..];
        i := i + 1;
      }
      SaveRegistry();
      return Ok(());
    }

    /** `list_registered_models`: every registered name once, in insertion order. */
    function ListRegisteredModels(): (names: seq<string>)
      reads this
      ensures forall n :: n in names <==> n in registry.records
      ensures forall i, j :: 0 <= i < j < |names| ==> names[i] != names[j]
      ensures |names| == |registry.records|
    {
      DistinctCardinality(registry);
      registry.names
    }

    /**
     `load_model`: fail on an unregistered name, return a cached pair as it is, otherwise
     dispatch on the record's type, load from its path and cache the pair. The registry never
     changes; a failure leaves the cache as it was.
     */
    method LoadModel(name: string, fs: Snapshot) returns (result: Result<LoadedModel, LoadError>)
      requires Valid()
      modifies this`models
      ensures Valid()
      ensures Outcome(result, models) == LoadOutcome(registry, old(models), name, fs)
      ensures name !in registry.records ==> result == Err(NotRegistered(name)) && models == old(models)
      ensures name in old(models) ==> result == Ok(old(models)[name]) && models == old(models)
      ensures result.Err? ==> models == old(models)
      ensures result.Ok? ==> models == old(models)[name := result.value]
    {
      if name !in registry.records {
        return Err(NotRegistered(name));
      }
      if name in models {
        return Ok(models[name]);
      }
      var info := registry.records[name];
      var modelPath := info.path;
      var loaded: Result<LoadedModel, LoadError>;
      if info.kind == "question_generation" {
        loaded := FromPretrained(modelPath, fs);
      } else if info.kind == "answer_generation" {
        loaded := FromPretrained(modelPath, fs);
      } else if info.kind == "distractor_generation" {
        loaded := FromPretrained(modelPath, fs);
      } else {
        return Err(UnsupportedType(info.kind));
      }
      if loaded.Err? {
        return Err(loaded.error);
      }
      models := models[name := loaded.value];
      return Ok(loaded.value);
    }
  }

  /** Constructing without a base directory uses `app/ml_models`; without a file nothing is registered. */
  method DefaultConstruction() returns (manager: ModelManager)
    ensures manager.baseDir == "app/ml_models"
    ensures manager.ListRegisteredModels() == []
  {
    var store := new RegistryFile(None);
    manager := new ModelManager(store);
  }

  /** A sequence without repetitions has as many elements as the set of its elements. */
  lemma {:induction false} DistinctCardinality(r: Registry)
    ensures |r.records| == |r.names|
  {
    DistinctSeqCardinality(r.names);
    assert r.records.Keys == set n | n in r.names;
  }

  lemma {:induction false} DistinctSeqCardinality(s: seq<string>)
    requires forall i, j :: 0 <= i < j < |s| ==> s[i] != s[j]
    ensures |set n | n in s| == |s|
  {
    if s != [] {
      DistinctSeqCardinality(s[1..]);
      assert (set n | n in s) == (set n | n in s[1..]) + {s[0]};
      assert s[0] !in s[1..];
    }
  }

  /** A scan keeps every cached name registered. */
  lemma ScanKeepsCacheRegistered(registry: Registry, models: Cache, base: string, fs: Snapshot)
    requires models.Keys <= registry.records.Keys
    requires Scan(registry, base, fs).Ok?
    ensures models.Keys <= Scan(registry, base, fs).value.records.Keys
  {
    ScanUpsert(registry, base, fs, Scan(registry, base, fs).value);
  }

  /**
   A re-scan does not invalidate the cache: a cached name still returns its old pair after a
   scan, even when the scan gave it a new path.
   */
  lemma RescanKeepsCachedPair(registry: Registry, models: Cache, name: string, base: string, fs: Snapshot, fs': Snapshot)
    requires models.Keys <= registry.records.Keys
    requires name in models
    requires Scan(registry, base, fs).Ok?
    ensures LoadOutcome(Scan(registry, base, fs).value, models, name, fs').result == Ok(models[name])
  {
    ScanKeepsCacheRegistered(registry, models, base, fs);
  }

  /**
   A scanned folder takes its own name as its type, so a discovered folder whose name is not one
   of the three known types is registered but raises "Unsupported model type" naming it when it
   is loaded.
   */
  lemma ScannedUnknownFolderUnsupported(registry: Registry, models: Cache, base: string, fs: Snapshot, folder: string, fs': Snapshot)
    requires base in fs.listings && folder in fs.listings[base]
    requires Join(base, folder) in fs.dirs && HasModels(base, folder, fs)
    requires folder !in models && !IsSupportedType(folder)
    requires Scan(registry, base, fs).Ok?
    ensures folder in Scan(registry, base, fs).value.records
    ensures LoadOutcome(Scan(registry, base, fs).value, models, folder, fs') == Outcome(Err(UnsupportedType(folder)), models)
  {
    ScanUpsert(registry, base, fs, Scan(registry, base, fs).value);
  }

  /** The scenario's base directory: `question_generation/models` and `unknown_kind` without `models`. */
  function ScenarioFiles(): Snapshot {
    Snapshot(
      map[DefaultBaseDir := ["question_generation", "unknown_kind"]],
      {"app/ml_models/question_generation", "app/ml_models/unknown_kind"},
      {"app/ml_models/question_generation", "app/ml_models/unknown_kind",
       "app/ml_models/question_generation/models"},
      {"app/ml_models/question_generation/models"})
  }

  lemma ScenarioPaths()
    ensures Join(DefaultBaseDir, "question_generation") == "app/ml_models/question_generation"
    ensures Join(DefaultBaseDir, "unknown_kind") == "app/ml_models/unknown_kind"
    ensures ModelPath(DefaultBaseDir, "question_generation") == "app/ml_models/question_generation/models"
    ensures ModelPath(DefaultBaseDir, "unknown_kind") == "app/ml_models/unknown_kind/models"
  {
  }

  /**
   Scanning the scenario's base directory into an empty registry registers only
   `question_generation`, with that name as its type.
   */
  lemma ScanScenario()
    ensures var rec := ModelRecord("app/ml_models/question_generation/models", "question_generation");
      Scan(Empty(), DefaultBaseDir, ScenarioFiles()) == Ok(RegistryDict(["question_generation"], map["question_generation" := rec]))
  {
    var fs := ScenarioFiles();
    var qg, uk := "question_generation", "unknown_kind";
    ScenarioPaths();
    assert HasModels(DefaultBaseDir, qg, fs);
    assert !HasModels(DefaultBaseDir, uk, fs);
    assert ModelFolders(DefaultBaseDir, [uk], fs) == [uk];
    assert ModelFolders(DefaultBaseDir, [qg, uk], fs) == [qg, uk];
    assert fs.listings[DefaultBaseDir] == [qg, uk];
    var rec := ModelRecord("app/ml_models/question_generation/models", qg);
    var r1 := ScanStep(Empty(), DefaultBaseDir, qg, fs);
    assert r1 == RegistryDict([qg], map[qg := rec]);
    assert [qg, uk][1..] == [uk];
    assert ScanFolders(Empty(), DefaultBaseDir, [qg, uk], fs) == ScanFolders(r1, DefaultBaseDir, [uk], fs);
    assert ScanStep(r1, DefaultBaseDir, uk, fs) == r1;
    assert ScanFolders(r1, DefaultBaseDir, [uk], fs) == ScanFolders(r1, DefaultBaseDir, [], fs);
  }

}

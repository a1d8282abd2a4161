/**
 Loading a registered model through the cache: the guarded lookup of `load_model`, stated as a
 function from the registry, the cache, the name and the file system to the result and the
 new cache.
 */
module ModelLoading {
  import opened Wrappers
  import opened Files
  import opened ModelRegistry

  /** What `T5ForConditionalGeneration.from_pretrained(path)` returns, identified by its directory. */
  datatype ModelHandle = T5ForConditionalGeneration(dir: string)

  /** What `T5Tokenizer.from_pretrained(path)` returns, identified by its directory. */
  datatype TokenizerHandle = T5Tokenizer(dir: string)

  /** The `(model, tokenizer)` pair that the cache holds. */
  datatype LoadedModel = LoadedModel(model: ModelHandle, tokenizer: TokenizerHandle)

  /** The cache `self.models`. */
  type Cache = map<string, LoadedModel>

  /** The exceptions `load_model` raises. */
  datatype LoadError =
    | NotRegistered(name: string)
    | UnsupportedType(kind: string)
    | ArtifactsUnreadable(path: string)   // raised inside `from_pretrained`

  /** The text of the `ValueError`s raised in `load_model`; the loader's own errors carry its path. */
  function Message(e: LoadError): string {
    match e
    case NotRegistered(name) => "Model '" + name + "' is not registered."
    case UnsupportedType(kind) => "Unsupported model type: " + kind
    case ArtifactsUnreadable(path) => path
  }

  /** The three model types the dispatch knows; each is loaded the same way. */
  predicate IsSupportedType(kind: string) {
    kind == "question_generation" || kind == "answer_generation" || kind == "distractor_generation"
  }

  /** Both `from_pretrained` calls; they read the artifacts under `path`. */
  function FromPretrained(path: string, fs: Snapshot): (r: Result<LoadedModel, LoadError>)
    ensures r.Ok? <==> path in fs.pretrained
    ensures r.Ok? ==> r.value.model.dir == path && r.value.tokenizer.dir == path
    ensures r.Err? ==> r.error == ArtifactsUnreadable(path)
  {
    if path in fs.pretrained then Ok(LoadedModel(T5ForConditionalGeneration(path), T5Tokenizer(path)))
    else Err(ArtifactsUnreadable(path))
  }

  /** What one call of `load_model` returns, and the cache it leaves behind. */
  datatype Outcome = Outcome(result: Result<LoadedModel, LoadError>, models: Cache)

  /**
   `load_model(name)`. A failed call leaves the cache as it was; the cache only grows, by at
   most the requested name, and never replaces an entry; on success the name is registered and
   the cache holds exactly the returned pair under it.
   */
  function LoadOutcome(registry: Registry, models: Cache, name: string, fs: Snapshot): (o: Outcome)
    ensures o.result.Err? ==> o.models == models
    ensures forall k :: k in models ==> k in o.models && o.models[k] == models[k]
    ensures o.models.Keys <= models.Keys + {name}
    ensures o.result.Ok? ==> name in registry.records && name in o.models && o.models[name] == o.result.value
  {
    if name !in registry.records then Outcome(Err(NotRegistered(name)), models)
    else if name in models then Outcome(Ok(models[name]), models)
    else
      var info := registry.records[name];
      if !IsSupportedType(info.kind) then Outcome(Err(UnsupportedType(info.kind)), models)
      else
        match FromPretrained(info.path, fs)
        case Err(e) => Outcome(Err(e), models)
        case Ok(pair) => Outcome(Ok(pair), models[name := pair])
  }

  /** The call raises "not registered" exactly when the name is not in the registry. */
  lemma LoadUnregistered(registry: Registry, models: Cache, name: string, fs: Snapshot)
    ensures LoadOutcome(registry, models, name, fs).result == Err(NotRegistered(name)) <==> name !in registry.records
  {
  }

  /** A registered, cached name returns the cached pair, whatever the file system holds. */
  lemma LoadCacheHit(registry: Registry, models: Cache, name: string, fs: Snapshot)
    requires name in registry.records && name in models
    ensures LoadOutcome(registry, models, name, fs) == Outcome(Ok(models[name]), models)
  {
  }

  /**
   After a successful load, loading the same name again, even against another file system,
   returns the same pair and leaves the cache alone: nothing is read a second time.
   */
  lemma LoadTwice(registry: Registry, models: Cache, name: string, fs: Snapshot, fs': Snapshot)
    requires LoadOutcome(registry, models, name, fs).result.Ok?
    ensures var first := LoadOutcome(registry, models, name, fs);
      LoadOutcome(registry, first.models, name, fs') == first
  {
  }

  /**
   A registered, uncached name raises "Unsupported model type" naming its type exactly when
   the type is none of the three known ones; the cache is unchanged then.
   */
  lemma LoadUnsupported(registry: Registry, models: Cache, name: string, fs: Snapshot)
    requires name in registry.records && name !in models
    ensures var o := LoadOutcome(registry, models, name, fs);
      (o.result == Err(UnsupportedType(registry.records[name].kind)) <==> !IsSupportedType(registry.records[name].kind))
    ensures !IsSupportedType(registry.records[name].kind) ==> LoadOutcome(registry, models, name, fs).models == models
  {
  }

  /**
   A registered, uncached name of a known type is loaded from its record's path: on success the
   pair comes from that path and the cache gains that one entry; if the artifacts cannot be
   read, the loader's error propagates and the cache is unchanged.
   */
  lemma LoadFresh(registry: Registry, models: Cache, name: string, fs: Snapshot)
    requires name in registry.records && name !in models
    requires IsSupportedType(registry.records[name].kind)
    ensures var path := registry.records[name].path;
      var o := LoadOutcome(registry, models, name, fs);
      && (path in fs.pretrained ==>
            var pair := LoadedModel(T5ForConditionalGeneration(path), T5Tokenizer(path));
            o == Outcome(Ok(pair), models[name := pair]))
      && (path !in fs.pretrained ==> o == Outcome(Err(ArtifactsUnreadable(path)), models))
  {
  }

  /**
   The texts of the two errors `load_model` raises itself: an unregistered name's, and an
   unknown type's, which names the type found in the record.
   */
  lemma LoadErrorMessages(registry: Registry, models: Cache, name: string, fs: Snapshot)
    ensures var o := LoadOutcome(registry, models, name, fs);
      name !in registry.records ==> Message(o.result.error) == "Model '" + name + "' is not registered."
    ensures var o := LoadOutcome(registry, models, name, fs);
      name in registry.records && name !in models && !IsSupportedType(registry.records[name].kind) ==>
        Message(o.result.error) == "Unsupported model type: " + registry.records[name].kind
  {
  }

  /** Loading keeps the cache's names among the registry's names. */
  lemma LoadKeepsCacheRegistered(registry: Registry, models: Cache, name: string, fs: Snapshot)
    requires models.Keys <= registry.records.Keys
    ensures LoadOutcome(registry, models, name, fs).models.Keys <= registry.records.Keys
  {
  }

}

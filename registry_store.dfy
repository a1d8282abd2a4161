/**
 The persisted registry: the JSON file `model_registry.json`, which `_load_registry` reads and
 `_save_registry` rewrites whole. The file lives in the working directory, not in the base
 directory. Its contents are kept as the registry they encode, so the
 JSON text itself is not modelled.
 */
module RegistryStore {
  import opened Wrappers
  import opened ModelRegistry

  class RegistryFile {
    /** `None` when the file does not exist; otherwise the registry it holds. */
    var stored: Option<Registry>

    constructor (initial: Option<Registry>)
      ensures stored == initial
    {
      stored := initial;
    }

    /** `_load_registry`: the empty registry when no file exists, else what the file holds. */
    method Load() returns (r: Registry)
      ensures stored.None? ==> r.names == [] && r.records == map[]
      ensures stored.Some? ==> r == stored.value
    {
      if stored.Some? {
        r := stored.value;
      } else {
        r := Empty();
      }
    }

    /** `_save_registry`: overwrite the file with the whole registry. */
    method Save(r: Registry)
      modifies this
      ensures stored == Some(r)
    {
      stored := Some(r);
    }
  }

  /** Saving and then loading gives back exactly the registry saved, names and order included. */
  method SaveThenLoad(file: RegistryFile, r: Registry) returns (loaded: Registry)
    modifies file
    ensures loaded == r
    ensures file.stored == Some(r)
  {
    file.Save(r);
    loaded := file.Load();
  }

}

/**
 The model registry: a dictionary from model name to `{path, type}`, and the folder scan
 that upserts entries into it.

 A Python dict remembers insertion order, and `list_registered_models` returns the names in
 that order, so a registry is modelled as the sequence of its names in insertion order
 together with the map from name to record.
 */
module ModelRegistry {
  import opened Wrappers
  import opened Files

  /** One registry entry, the JSON object `{"path": ..., "type": ...}`; `type` is spelled `kind`. */
  datatype ModelRecord = ModelRecord(path: string, kind: string)

  datatype RegistryDict = RegistryDict(names: seq<string>, records: map<string, ModelRecord>) {
    /** Every name occurs once in `names`, and `names` lists exactly the keys of `records`. */
    predicate WellFormed() {
      && (forall i, j :: 0 <= i < j < |names| ==> names[i] != names[j])
      && (forall n :: n in names ==> n in records)
      && (forall n :: n in records ==> n in names)
    }
  }

  /** A dictionary as Python keeps it: keys in insertion order, each once. */
  type Registry = r: RegistryDict | r.WellFormed() witness RegistryDict([], map[])

  /** The registry when no file exists: no names. */
  function Empty(): Registry {
    RegistryDict([], map[])
  }

  /**
   `registry[name] = rec`: the record is stored under `name`; a name already present keeps its
   place in the order, a new name goes last.
   */
  function Put(r: Registry, name: string, rec: ModelRecord): Registry {
    if name in r.records then RegistryDict(r.names, r.records[name := rec])
    else
      var d := RegistryDict(r.names + [name], r.records[name := rec]);
      assert d.WellFormed() by {
        assert name !in r.names;
        forall n ensures n in d.records <==> n in d.names {
          assert n in d.names <==> n in r.names || n == name;
        }
      }
      d
  }

  /** Why a scan fails: `os.listdir` raised on the base directory. */
  datatype ScanError = ListingFailed(dir: string)

  /** The folder's `models` sub-path under the base directory, joined as at line 28 of the manager. */
  function ModelPath(base: string, folder: string): string {
    Join(Join(base, folder), "models")
  }

  /**
   Joining a relative base directory that does not end in '/' with a plain folder name puts
   one '/' between the parts: the path is `base/folder/models`.
   */
  lemma ModelPathShape(base: string, folder: string)
    requires base != [] && base[|base| - 1] != '/'
    requires folder != [] && '/' !in folder
    ensures ModelPath(base, folder) == base + "/" + folder + "/models"
  {
    JoinShape(base, folder);
    var p := Join(base, folder);
    assert p == base + "/" + folder by { assert folder[0] in folder; }
    assert p[|p| - 1] == folder[|folder| - 1] && folder[|folder| - 1] in folder;
    JoinShape(p, "models");
    assert "models"[0] == 'm';
    assert p + "/" + "models" == base + "/" + folder + "/models";
  }

  /** The folder holds a `models` sub-path (`os.path.exists`: a file counts as well as a directory). */
  predicate HasModels(base: string, folder: string, fs: Snapshot) {
    ModelPath(base, folder) in fs.existing
  }

  /** The record the scan writes for a folder: its models path, and the folder name as its type. */
  function Discovered(base: string, folder: string): ModelRecord {
    ModelRecord(ModelPath(base, folder), folder)
  }

  /** The scan upserts `folder` when it is one of `folders` and holds a `models` sub-path. */
  predicate Discovers(base: string, folders: seq<string>, fs: Snapshot, folder: string) {
    folder in folders && HasModels(base, folder, fs)
  }

  /** The listed entries that are directories once joined to the base directory, in listing order. */
  function ModelFolders(base: string, entries: seq<string>, fs: Snapshot): (folders: seq<string>)
    ensures |folders| <= |entries|
    ensures forall f :: f in folders <==> f in entries && Join(base, f) in fs.dirs
  {
    if entries == [] then []
    else
      var rest := ModelFolders(base, entries[1..], fs);
      assert forall f :: f in entries <==> f == entries[0] || f in entries[1..];
      if Join(base, entries[0]) in fs.dirs then [entries[0]] + rest else rest
  }

  /** One turn of the scan loop body. */
  function ScanStep(r: Registry, base: string, folder: string, fs: Snapshot): Registry {
    if HasModels(base, folder, fs) then Put(r, folder, Discovered(base, folder)) else r
  }

  /**
   The scan loop over `folders`, in order, starting from registry `r`. It never removes a name
   and keeps the old names, in their order, ahead of any new one.
   */
  function ScanFolders(r: Registry, base: string, folders: seq<string>, fs: Snapshot): (s: Registry)
    ensures r.records.Keys <= s.records.Keys
    ensures r.names <= s.names
    decreases |folders|
  {
    if folders == [] then r
    else ScanFolders(ScanStep(r, base, folders[0], fs), base, folders[1..], fs)
  }

  /**
   What `scan_models` does to the registry: list the base directory, keep its sub-directories,
   upsert. It fails, naming the directory, exactly when the base directory cannot be listed; a
   successful scan removes no name and keeps the old names first, in their order.
   */
  function Scan(r: Registry, base: string, fs: Snapshot): (s: Result<Registry, ScanError>)
    ensures s.Err? <==> base !in fs.listings
    ensures s.Err? ==> s.error == ListingFailed(base)
    ensures s.Ok? ==> r.records.Keys <= s.value.records.Keys && r.names <= s.value.names
  {
    if base !in fs.listings then Err(ListingFailed(base))
    else Ok(ScanFolders(r, base, ModelFolders(base, fs.listings[base], fs), fs))
  }

  /**
   The scan as a reference definition: a name is registered afterwards exactly when it was
   before or the scan discovers it; a discovered name maps to its discovered record and every
   other name keeps its old record.
   */
  lemma {:induction false} ScanFoldersRecords(r: Registry, base: string, folders: seq<string>, fs: Snapshot)
    ensures var s := ScanFolders(r, base, folders, fs);
      forall k :: k in s.records <==> k in r.records || Discovers(base, folders, fs, k)
    ensures var s := ScanFolders(r, base, folders, fs);
      forall k :: k in s.records ==>
        s.records[k] == if Discovers(base, folders, fs, k) then Discovered(base, k) else r.records[k]
    decreases |folders|
  {
    if folders != [] {
      var r1 := ScanStep(r, base, folders[0], fs);
      ScanFoldersRecords(r1, base, folders[1..], fs);
      assert forall k :: k in folders <==> k == folders[0] || k in folders[1..];
      var s := ScanFolders(r, base, folders, fs);
      assert s == ScanFolders(r1, base, folders[1..], fs);
      forall k | k in s.records
        ensures s.records[k] == if Discovers(base, folders, fs, k) then Discovered(base, k) else r.records[k]
      {
        if !Discovers(base, folders[1..], fs, k) && k == folders[0] && HasModels(base, k, fs) {
          assert r1.records[k] == Discovered(base, k);
        }
      }
    }
  }

  /**
   The scan keeps the order of the names already registered and appends the new ones after
   them; every appended name is a discovered folder that was not registered before.
   */
  lemma {:induction false} ScanFoldersOrder(r: Registry, base: string, folders: seq<string>, fs: Snapshot)
    ensures var s := ScanFolders(r, base, folders, fs);
      && r.names <= s.names
      && forall i :: |r.names| <= i < |s.names| ==>
           Discovers(base, folders, fs, s.names[i]) && s.names[i] !in r.records
    decreases |folders|
  {
    if folders != [] {
      var r1 := ScanStep(r, base, folders[0], fs);
      ScanFoldersOrder(r1, base, folders[1..], fs);
      var s := ScanFolders(r, base, folders, fs);
      assert s == ScanFolders(r1, base, folders[1..], fs);
      assert r.names <= r1.names;
      forall i | |r.names| <= i < |s.names|
        ensures Discovers(base, folders, fs, s.names[i]) && s.names[i] !in r.records
      {
        if i < |r1.names| {
          assert i == |r.names| && r1.names == r.names + [folders[0]];
        } else {
          assert s.names[i] in folders[1..];
          assert s.names[i] !in r1.records;
        }
      }
    }
  }

  /** Scanning folders whose records are all in place already changes nothing, order included. */
  lemma {:induction false} ScanFoldersFixpoint(r: Registry, base: string, folders: seq<string>, fs: Snapshot)
    requires forall k :: Discovers(base, folders, fs, k) ==> k in r.records && r.records[k] == Discovered(base, k)
    ensures ScanFolders(r, base, folders, fs) == r
    decreases |folders|
  {
    if folders != [] {
      var r1 := ScanStep(r, base, folders[0], fs);
      assert r1 == r by {
        if HasModels(base, folders[0], fs) {
          assert Discovers(base, folders, fs, folders[0]);
          assert r.records[folders[0] := Discovered(base, folders[0])] == r.records;
        }
      }
      forall k | Discovers(base, folders[1..], fs, k)
        ensures k in r.records && r.records[k] == Discovered(base, k)
      {
        assert Discovers(base, folders, fs, k);
      }
      ScanFoldersFixpoint(r, base, folders[1..], fs);
    }
  }

  /** `scan_models` is idempotent: scanning the same listing again gives the same registry. */
  lemma ScanIdempotent(r: Registry, base: string, fs: Snapshot)
    ensures Scan(r, base, fs).Ok? ==> Scan(Scan(r, base, fs).value, base, fs) == Scan(r, base, fs)
  {
    if base in fs.listings {
      var folders := ModelFolders(base, fs.listings[base], fs);
      var s := ScanFolders(r, base, folders, fs);
      ScanFoldersRecords(r, base, folders, fs);
      ScanFoldersFixpoint(s, base, folders, fs);
    }
  }

  /**
   After a successful scan, each listed sub-directory holding `models` maps to its discovered
   record; a listed entry that is not a directory, or has no `models`, is skipped; every other
   existing entry is unchanged, and no name is removed.
   */
  lemma ScanUpsert(r: Registry, base: string, fs: Snapshot, s: Registry)
    requires Scan(r, base, fs) == Ok(s)
    ensures r.records.Keys <= s.records.Keys
    ensures forall f :: f in fs.listings[base] && Join(base, f) in fs.dirs && HasModels(base, f, fs) ==>
      f in s.records && s.records[f] == Discovered(base, f)
    ensures forall k :: k in s.records && !(k in fs.listings[base] && Join(base, k) in fs.dirs && HasModels(base, k, fs)) ==>
      k in r.records && s.records[k] == r.records[k]
    ensures r.names <= s.names
  {
    var folders := ModelFolders(base, fs.listings[base], fs);
    ScanFoldersRecords(r, base, folders, fs);
    ScanFoldersOrder(r, base, folders, fs);
  }

}

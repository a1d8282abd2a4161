/**
 This module stands for what the model manager asks of the host: `os.path.join`, and one
 snapshot of the file system that the calls `os.listdir`, `os.path.isdir`,
 `os.path.exists` and the `from_pretrained` loaders observe.
 */
module Files {

  /**
   A snapshot of the file system, taken as an input of each operation.
   - `listings`: for each directory `os.listdir` can read, its entry names in listing order;
     `os.listdir` raises on a path that has no listing here;
   - `dirs`: the paths on which `os.path.isdir` holds;
   - `existing`: the paths on which `os.path.exists` holds;
   - `pretrained`: the directories from which both `from_pretrained` calls succeed.
   */
  datatype Snapshot = Snapshot(
    listings: map<string, seq<string>>,
    dirs: set<string>,
    existing: set<string>,
    pretrained: set<string>)

  /** `os.path.join(a, b)` on POSIX: an absolute `b` replaces `a`, otherwise one '/' separates them. */
  function Join(a: string, b: string): (p: string)
  {
    if b != [] && b[0] == '/' then b
    else if a == [] || a[|a| - 1] == '/' then a + b
    else a + "/" + b
  }

  /**
   What `Join` promises: the second part always ends the result; an absolute second part is
   the whole result; otherwise the first part begins it, and exactly one '/' is inserted when
   the first part is non-empty and does not already end in '/'.
   */
  lemma JoinShape(a: string, b: string)
    ensures var p := Join(a, b);
      && |b| <= |p| && p[|p| - |b|..] == b
      && (b != [] && b[0] == '/' ==> p == b)
      && ((b == [] || b[0] != '/') ==> a <= p)
      && ((b == [] || b[0] != '/') && a != [] && a[|a| - 1] != '/' ==> p == a + "/" + b)
      && ((b == [] || b[0] != '/') && (a == [] || a[|a| - 1] == '/') ==> p == a + b)
  {
  }

}

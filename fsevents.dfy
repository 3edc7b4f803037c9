/** File-system notifications, directory entries and slash-separated paths,
    as the watcher and the lister receive them. */
module FsEvents {

  /** The operation flags an fsnotify event can carry. */
  datatype Op = Create | Write | Remove | Rename | Chmod

  /** An fsnotify event: the path it concerns and the set of flags it carries. */
  datatype FsEvent = FsEvent(name: string, ops: set<Op>) {

    /** `event.Has(op)`: the flag is among the event's flags. */
    predicate Has(op: Op) { op in ops }

    /** `event.Op == op`: the event carries that flag and no other. */
    predicate OpIs(op: Op) { ops == {op} }
  }

  /** One entry of a directory listing. */
  datatype DirEntry = DirEntry(name: string, isDir: bool)

  /** What `os.ReadDir` returned: the entries, a not-exist error, or any other
      error together with the entries read before it failed. */
  datatype ReadResult =
    | Entries(entries: seq<DirEntry>)
    | NotExist
    | ReadFailed(partial: seq<DirEntry>)

  /** Index of the last '/' in `p`, or -1 when there is none. */
  function LastSlash(p: string): (i: int)
    ensures -1 <= i < |p|
    ensures i >= 0 ==> p[i] == '/'
    ensures forall k :: i < k < |p| ==> p[k] != '/'
  {
    if p == [] then -1
    else if p[|p| - 1] == '/' then |p| - 1
    else LastSlash(p[..|p| - 1])
  }

  /** `path.Dir` on a clean path: the path with its last element dropped,
      "/" for an element directly under the root, "." for a bare name. */
  function ParentDir(p: string): (d: string)
    ensures '/' !in p ==> d == "."
    ensures '/' in p ==> d != "" && d <= p
    ensures '/' in p && d != "/" ==>
      |d| < |p| && p[|d|] == '/' && forall k :: |d| < k < |p| ==> p[k] != '/'
    ensures d == "/" ==>
      |p| > 0 && p[0] == '/' && forall k :: 0 < k < |p| && p[k] == '/' ==> k == 1
  {
    var i := LastSlash(p);
    if i < 0 then "."
    else if i == 0 then "/"
    else p[..i]
  }

  /** The parent of `dir + "/" + name` is `dir` when `name` is a single
      path element. */
  lemma ParentOfChild(dir: string, name: string)
    requires dir != "" && '/' !in name
    ensures ParentDir(dir + "/" + name) == dir
  {
    var p := dir + "/" + name;
    assert p[|dir|] == '/';
    forall k | |dir| < k < |p| ensures p[k] != '/' {
      assert p[k] == name[k - |dir| - 1];
    }
    assert LastSlash(p) == |dir|;
    assert p[..|dir|] == dir;
  }
}

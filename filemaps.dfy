/** The two lookup maps the synchronisation compares, and the exclusion
    test both apply. Each side is projected onto one key space: a remote
    record's key is its path followed by its name, a local file's key is
    `/zone/` followed by its path below the local directory. */
module FileMaps {
  import opened Common
  import opened Paths
  import opened Storage
  import opened Local

  /** The glob matcher, called with the file name first and the pattern
      second. */
  type Matcher = (string, string) -> bool

  /** `is_excluded`: some pattern matches the name. */
  function IsExcluded(fileName: string, patterns: seq<string>, glob: Matcher): (r: bool)
    ensures r <==> exists i :: 0 <= i < |patterns| && glob(fileName, patterns[i])
  {
    if patterns == [] then false
    else
      var rest := IsExcluded(fileName, patterns[1..], glob);
      assert rest <==> exists i :: 1 <= i < |patterns| && glob(fileName, patterns[i]) by {
        if rest {
          var i :| 0 <= i < |patterns[1..]| && glob(fileName, patterns[1..][i]);
          assert patterns[i + 1] == patterns[1..][i];
        }
        forall i | 1 <= i < |patterns| && glob(fileName, patterns[i]) ensures rest {
          assert patterns[1..][i - 1] == patterns[i];
        }
      }
      glob(fileName, patterns[0]) || rest
  }

  /** With no pattern nothing is excluded. */
  lemma NothingExcludedWithoutPatterns(fileName: string, glob: Matcher)
    ensures !IsExcluded(fileName, [], glob)
  {
  }

  /** Adding a pattern can only exclude more. */
  lemma ExcludedMonotone(fileName: string, patterns: seq<string>, extra: string, glob: Matcher)
    ensures IsExcluded(fileName, patterns, glob) ==> IsExcluded(fileName, patterns + [extra], glob)
    ensures IsExcluded(fileName, patterns + [extra], glob) <==> IsExcluded(fileName, patterns, glob) || glob(fileName, extra)
  {
    var all := patterns + [extra];
    assert all[|patterns|] == extra;
    if IsExcluded(fileName, patterns, glob) {
      var i :| 0 <= i < |patterns| && glob(fileName, patterns[i]);
      assert all[i] == patterns[i];
    }
    if IsExcluded(fileName, all, glob) {
      var i :| 0 <= i < |all| && glob(fileName, all[i]);
      if i < |patterns| { assert all[i] == patterns[i]; }
    }
  }

  /** The key of a remote record. */
  function RemoteKey(o: StorageObject): string
  {
    o.path + o.objectName
  }

  /** A remote record that enters the map: a file whose name is not excluded. */
  predicate KeptRemote(o: StorageObject, exclude: seq<string>, glob: Matcher)
  {
    !o.isDirectory && !IsExcluded(o.objectName, exclude, glob)
  }

  /** `get_remote_file_map`, given the records the walk returned; a later
      record with the same key replaces an earlier one. */
  function RemoteFileMap(objects: seq<StorageObject>, exclude: seq<string>, glob: Matcher)
    : (m: map<string, StorageObject>)
    ensures forall k :: k in m ==> RemoteKey(m[k]) == k && KeptRemote(m[k], exclude, glob) && m[k] in objects
    ensures forall o :: o in objects && KeptRemote(o, exclude, glob) ==> RemoteKey(o) in m
  {
    if objects == [] then map[]
    else
      var m := RemoteFileMap(objects[..|objects| - 1], exclude, glob);
      var o := objects[|objects| - 1];
      assert forall x :: x in objects ==> x in objects[..|objects| - 1] || x == o;
      if KeptRemote(o, exclude, glob) then m[RemoteKey(o) := o] else m
  }

  /** The last kept record of a key is the one in the map. */
  lemma {:induction false} RemoteFileMapLastWins(objects: seq<StorageObject>, exclude: seq<string>, glob: Matcher, i: nat)
    requires i < |objects| && KeptRemote(objects[i], exclude, glob)
    requires forall j :: i < j < |objects| && KeptRemote(objects[j], exclude, glob) ==> RemoteKey(objects[j]) != RemoteKey(objects[i])
    ensures RemoteFileMap(objects, exclude, glob)[RemoteKey(objects[i])] == objects[i]
  {
    var init, o := objects[..|objects| - 1], objects[|objects| - 1];
    if i < |objects| - 1 {
      assert init[i] == objects[i];
      forall j | i < j < |init| && KeptRemote(init[j], exclude, glob) ensures RemoteKey(init[j]) != RemoteKey(init[i]) {
        assert init[j] == objects[j];
      }
      RemoteFileMapLastWins(init, exclude, glob, i);
    }
  }

  /** The name the exclusion test sees for a local file: the last
      component of its path. */
  function LocalName(f: LocalFile): string
  {
    match FileName(f.path)
    case Some(n) => n
    case None => ""
  }

  /** The key of a local file. */
  function LocalKey(zoneName: string, f: LocalFile): string
  {
    "/" + zoneName + "/" + f.relativePath
  }

  /** A local entry that enters the map: a file whose name is not excluded. */
  predicate KeptLocal(f: LocalFile, exclude: seq<string>, glob: Matcher)
  {
    !f.isDirectory && !IsExcluded(LocalName(f), exclude, glob)
  }

  /** `get_local_file_map`, given the entries of the directory walk; a later
      entry with the same key replaces an earlier one. */
  function LocalFileMap(files: seq<LocalFile>, zoneName: string, exclude: seq<string>, glob: Matcher)
    : (m: map<string, LocalFile>)
    ensures forall k :: k in m ==> LocalKey(zoneName, m[k]) == k && KeptLocal(m[k], exclude, glob) && m[k] in files
    ensures forall f :: f in files && KeptLocal(f, exclude, glob) ==> LocalKey(zoneName, f) in m
  {
    if files == [] then map[]
    else
      var m := LocalFileMap(files[..|files| - 1], zoneName, exclude, glob);
      var f := files[|files| - 1];
      assert forall x :: x in files ==> x in files[..|files| - 1] || x == f;
      if KeptLocal(f, exclude, glob) then m[LocalKey(zoneName, f) := f] else m
  }

  /** Every local key starts with the zone between separators. */
  lemma LocalKeyShape(files: seq<LocalFile>, zoneName: string, exclude: seq<string>, glob: Matcher, k: string)
    requires k in LocalFileMap(files, zoneName, exclude, glob)
    ensures "/" + zoneName + "/" <= k
    ensures k == "/" + zoneName + "/" + LocalFileMap(files, zoneName, exclude, glob)[k].relativePath
  {
  }
}

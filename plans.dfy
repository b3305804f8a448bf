/** What one synchronisation run decides to do. Both directions walk the keys
    of one lookup map in hash-map order and turn some keys into actions: push
    uploads local files and deletes remote objects, pull downloads remote
    objects and removes local files. A plan is the actions of one run in
    order; the order of keys is a parameter (any enumeration of the map). */
module Plans {
  import opened Common
  import opened Paths
  import opened Storage
  import opened Local
  import opened FileMaps
  import opened Effects
  import opened RemoteWalk

  /** The skip test, the same in both directions: the local copy is no newer
      than the remote one and has its length. */
  predicate UpToDate(f: LocalFile, o: StorageObject)
  {
    f.lastChanged <= o.lastChanged && f.length == o.length
  }

  /** The keys the actions of a plan are about. */
  function Keys(plan: seq<Action>): (ks: seq<string>)
    ensures |ks| == |plan|
    ensures forall i :: 0 <= i < |plan| ==> ks[i] == plan[i].key
  {
    seq(|plan|, i requires 0 <= i < |plan| => plan[i].key)
  }

  /** Visit `order`, keep the action `step` decides on for each key. */
  function Plan(order: seq<string>, step: string -> Option<Action>): (plan: seq<Action>)
    ensures |plan| <= |order|
    ensures forall a :: a in plan ==> exists k :: k in order && step(k) == Some(a)
  {
    if order == [] then []
    else
      var init, k := order[..|order| - 1], order[|order| - 1];
      assert forall x :: x in init ==> x in order;
      Plan(init, step) + (match step(k) case Some(a) => [a] case None => [])
  }

  /** A step that acts on a key names that key. */
  ghost predicate KeyFaithful(step: string -> Option<Action>)
  {
    forall k :: step(k).Some? ==> step(k).value.key == k
  }

  /** A plan is about exactly the keys of `order` its step acts on, each
      once when `order` repeats none. */
  lemma {:induction false} PlanKeys(order: seq<string>, step: string -> Option<Action>)
    requires KeyFaithful(step)
    ensures forall k :: k in Keys(Plan(order, step)) <==> k in order && step(k).Some?
    ensures NoDup(order) ==> NoDup(Keys(Plan(order, step)))
  {
    if order != [] {
      var init, k := order[..|order| - 1], order[|order| - 1];
      PlanKeys(init, step);
      var p := Plan(init, step);
      var tail := match step(k) case Some(a) => [a] case None => [];
      assert Plan(order, step) == p + tail;
      assert Keys(p + tail) == Keys(p) + Keys(tail);
      assert Keys(tail) == if step(k).Some? then [k] else [];
      assert order == init + [k];
      forall x ensures x in Keys(p + tail) <==> x in order && step(x).Some? {
        assert x in order <==> x in init || x == k;
      }
      if NoDup(order) {
        assert NoDup(init);
        assert k !in init;
        if step(k).Some? {
          NoDupSnoc(Keys(p), k);
        }
      }
    }
  }

  lemma NoDupSnoc(s: seq<string>, x: string)
    requires NoDup(s) && x !in s
    ensures NoDup(s + [x])
  {
  }

  /** The plan of a key list that ends in `k`. */
  lemma PlanSnoc(order: seq<string>, k: string, step: string -> Option<Action>)
    ensures Plan(order + [k], step) == Plan(order, step) + (match step(k) case Some(a) => [a] case None => [])
  {
    assert (order + [k])[..|order|] == order;
  }

  /** Visiting `a` then `b` plans the actions of `a` then those of `b`. */
  lemma {:induction false} PlanAppend(a: seq<string>, b: seq<string>, step: string -> Option<Action>)
    ensures Plan(a + b, step) == Plan(a, step) + Plan(b, step)
  {
    if b == [] {
      assert a + b == a;
    } else {
      var init, k := b[..|b| - 1], b[|b| - 1];
      PlanAppend(a, init, step);
      assert a + b == (a + init) + [k];
      PlanSnoc(a + init, k, step);
      PlanSnoc(init, k, step);
      assert init + [k] == b;
      ConcatAssoc(Plan(a, step), Plan(init, step), match step(k) case Some(x) => [x] case None => []);
    }
  }

  /** `sync_to_remote`, first loop: a local file is uploaded, from its own
      path, to the one stripped destination, unless its name is excluded or
      the zone already holds an up-to-date copy under its key. */
  function UploadRule(local: map<string, LocalFile>, remote: map<string, StorageObject>, destination: string,
                      exclude: seq<string>, glob: Matcher): string -> Option<Action>
  {
    k =>
      if k in local && !IsExcluded(LocalName(local[k]), exclude, glob)
         && !(k in remote && UpToDate(local[k], remote[k]))
      then Some(Upload(k, local[k].path, destination))
      else None
  }

  /** The second loop of either direction: a key of the map walked that the
      other side's map lacks is deleted. */
  function DeleteRule(keep: set<string>, remoteSide: bool): string -> Option<Action>
  {
    k => if k in keep then None else if remoteSide then Some(DeleteRemote(k)) else Some(RemoveLocal(k))
  }

  /** `sync_to_local`, first loop: a remote object is downloaded unless an
      up-to-date local copy is under its key; the request names the
      object's path, a separator and its name, and the file written is the
      key mapped below the local base. */
  function DownloadRule(local: map<string, LocalFile>, remote: map<string, StorageObject>,
                        localBase: string, zoneName: string): string -> Option<Action>
  {
    k =>
      if k in remote && !(k in local && UpToDate(local[k], remote[k]))
      then Some(Download(k, remote[k].path + "/" + remote[k].objectName, GetPath(localBase, zoneName, k)))
      else None
  }

  /** Every action of a push: uploads in the local map's order, then, with
      `delete`, deletes in the remote map's order. */
  function PushPlan(localOrder: seq<string>, remoteOrder: seq<string>,
                    local: map<string, LocalFile>, remote: map<string, StorageObject>,
                    destination: string, delete: bool, exclude: seq<string>, glob: Matcher): seq<Action>
  {
    Plan(localOrder, UploadRule(local, remote, destination, exclude, glob))
      + (if delete then Plan(remoteOrder, DeleteRule(local.Keys, true)) else [])
  }

  /** Every action of a pull: downloads in the remote map's order, then, with
      `delete`, removals in the local map's order. */
  function PullPlan(remoteOrder: seq<string>, localOrder: seq<string>,
                    local: map<string, LocalFile>, remote: map<string, StorageObject>,
                    localBase: string, zoneName: string, delete: bool): seq<Action>
  {
    Plan(remoteOrder, DownloadRule(local, remote, localBase, zoneName))
      + (if delete then Plan(localOrder, DeleteRule(remote.Keys, false)) else [])
  }

  /** Push uploads exactly the local keys the zone lacks or holds an older
      or differently sized copy of, each once. The exclusion test of the
      loop never fires: the local map already left excluded names out. */
  lemma PushUploads(files: seq<LocalFile>, zoneName: string, remote: map<string, StorageObject>,
                    destination: string, exclude: seq<string>, glob: Matcher, localOrder: seq<string>)
    requires Enumerates(localOrder, LocalFileMap(files, zoneName, exclude, glob).Keys)
    ensures var local := LocalFileMap(files, zoneName, exclude, glob);
      var uploads := Plan(localOrder, UploadRule(local, remote, destination, exclude, glob));
      NoDup(Keys(uploads))
      && forall k :: k in Keys(uploads) <==>
           k in local && (k !in remote || remote[k].lastChanged < local[k].lastChanged || local[k].length != remote[k].length)
  {
    var local := LocalFileMap(files, zoneName, exclude, glob);
    PlanKeys(localOrder, UploadRule(local, remote, destination, exclude, glob));
  }

  /** Every upload reads the file it is about and writes the stripped
      destination, never the file's own key. */
  lemma PushTargets(local: map<string, LocalFile>, remote: map<string, StorageObject>, destination: string,
                    exclude: seq<string>, glob: Matcher, localOrder: seq<string>)
    ensures forall a :: a in Plan(localOrder, UploadRule(local, remote, destination, exclude, glob)) ==>
      a.Upload? && a.key in local && a.source == local[a.key].path && a.destination == destination
  {
  }

  /** With `delete`, push deletes exactly the remote keys the local map
      lacks, each once; without it, nothing. */
  lemma PushDeletes(local: map<string, LocalFile>, remote: map<string, StorageObject>, remoteOrder: seq<string>)
    requires Enumerates(remoteOrder, remote.Keys)
    ensures var deletes := Plan(remoteOrder, DeleteRule(local.Keys, true));
      NoDup(Keys(deletes))
      && (forall k :: k in Keys(deletes) <==> k in remote && k !in local)
      && (forall a :: a in deletes ==> a == DeleteRemote(a.key))
  {
    PlanKeys(remoteOrder, DeleteRule(local.Keys, true));
  }

  /** Pull downloads exactly the remote keys with no local copy, or with one
      that is newer or differently sized, each once. */
  lemma PullDownloads(local: map<string, LocalFile>, remote: map<string, StorageObject>,
                      localBase: string, zoneName: string, remoteOrder: seq<string>)
    requires Enumerates(remoteOrder, remote.Keys)
    ensures var downloads := Plan(remoteOrder, DownloadRule(local, remote, localBase, zoneName));
      NoDup(Keys(downloads))
      && forall k :: k in Keys(downloads) <==>
           k in remote && (k !in local || remote[k].lastChanged < local[k].lastChanged || local[k].length != remote[k].length)
  {
    PlanKeys(remoteOrder, DownloadRule(local, remote, localBase, zoneName));
  }

  /** Every download fetches the object's path, a separator and its name,
      and writes the key's place below the local base. */
  lemma PullTargets(local: map<string, LocalFile>, remote: map<string, StorageObject>,
                    localBase: string, zoneName: string, remoteOrder: seq<string>)
    ensures forall a :: a in Plan(remoteOrder, DownloadRule(local, remote, localBase, zoneName)) ==>
      a.Download? && a.key in remote
      && a.url == remote[a.key].path + "/" + remote[a.key].objectName
      && a.target == GetPath(localBase, zoneName, a.key)
  {
  }

  /** With `delete`, pull removes exactly the local keys the remote map
      lacks, each once, naming the file by the key itself; without it,
      nothing. */
  lemma PullRemovals(local: map<string, LocalFile>, remote: map<string, StorageObject>, localOrder: seq<string>)
    requires Enumerates(localOrder, local.Keys)
    ensures var removals := Plan(localOrder, DeleteRule(remote.Keys, false));
      NoDup(Keys(removals))
      && (forall k :: k in Keys(removals) <==> k in local && k !in remote)
      && (forall a :: a in removals ==> a == RemoveLocal(a.key))
  {
    PlanKeys(localOrder, DeleteRule(remote.Keys, false));
  }

  /** Without `delete` nothing is deleted or removed. */
  lemma NoDeleteWithoutFlag(localOrder: seq<string>, remoteOrder: seq<string>,
                            local: map<string, LocalFile>, remote: map<string, StorageObject>,
                            destination: string, localBase: string, zoneName: string,
                            exclude: seq<string>, glob: Matcher)
    ensures forall a :: a in PushPlan(localOrder, remoteOrder, local, remote, destination, false, exclude, glob) ==> a.Upload?
    ensures forall a :: a in PullPlan(remoteOrder, localOrder, local, remote, localBase, zoneName, false) ==> a.Download?
  {
    assert PushPlan(localOrder, remoteOrder, local, remote, destination, false, exclude, glob)
        == Plan(localOrder, UploadRule(local, remote, destination, exclude, glob));
    assert PullPlan(remoteOrder, localOrder, local, remote, localBase, zoneName, false)
        == Plan(remoteOrder, DownloadRule(local, remote, localBase, zoneName));
  }

  /** Push acts only on the zone and pull only on the local side. */
  lemma PlansStayOnTheirSide(localOrder: seq<string>, remoteOrder: seq<string>,
                             local: map<string, LocalFile>, remote: map<string, StorageObject>,
                             destination: string, localBase: string, zoneName: string, delete: bool,
                             exclude: seq<string>, glob: Matcher)
    ensures RemoteOnly(PushPlan(localOrder, remoteOrder, local, remote, destination, delete, exclude, glob))
    ensures LocalOnly(PullPlan(remoteOrder, localOrder, local, remote, localBase, zoneName, delete))
  {
    var push := PushPlan(localOrder, remoteOrder, local, remote, destination, delete, exclude, glob);
    forall i | 0 <= i < |push| ensures push[i].Upload? || push[i].DeleteRemote? {
      assert push[i] in push;
    }
    var pull := PullPlan(remoteOrder, localOrder, local, remote, localBase, zoneName, delete);
    forall i | 0 <= i < |pull| ensures pull[i].Download? || pull[i].RemoveLocal? {
      assert pull[i] in pull;
    }
  }

  /** When both maps have the same keys and every local copy is up to date,
      neither direction has anything to do. */
  lemma InSyncNothingToDo(files: seq<LocalFile>, zoneName: string, remote: map<string, StorageObject>,
                          destination: string, localBase: string, delete: bool,
                          exclude: seq<string>, glob: Matcher, localOrder: seq<string>, remoteOrder: seq<string>)
    requires var local := LocalFileMap(files, zoneName, exclude, glob);
      local.Keys == remote.Keys && forall k :: k in local ==> UpToDate(local[k], remote[k])
    requires Enumerates(localOrder, LocalFileMap(files, zoneName, exclude, glob).Keys)
    requires Enumerates(remoteOrder, remote.Keys)
    ensures PushPlan(localOrder, remoteOrder, LocalFileMap(files, zoneName, exclude, glob), remote, destination, delete, exclude, glob) == []
    ensures PullPlan(remoteOrder, localOrder, LocalFileMap(files, zoneName, exclude, glob), remote, localBase, zoneName, delete) == []
  {
    var local := LocalFileMap(files, zoneName, exclude, glob);
    PushUploads(files, zoneName, remote, destination, exclude, glob, localOrder);
    PushDeletes(local, remote, remoteOrder);
    PullDownloads(local, remote, localBase, zoneName, remoteOrder);
    PullRemovals(local, remote, localOrder);
    EmptyKeys(Plan(localOrder, UploadRule(local, remote, destination, exclude, glob)));
    EmptyKeys(Plan(remoteOrder, DeleteRule(local.Keys, true)));
    EmptyKeys(Plan(remoteOrder, DownloadRule(local, remote, localBase, zoneName)));
    EmptyKeys(Plan(localOrder, DeleteRule(remote.Keys, false)));
  }

  lemma EmptyKeys(plan: seq<Action>)
    ensures (forall k :: k !in Keys(plan)) ==> plan == []
  {
    if plan != [] {
      assert Keys(plan)[0] in Keys(plan);
    }
  }

  /** The skip test is not mirrored for pull: a remote object newer than
      its local copy of the same length is not fetched, while a local copy
      newer than the object is overwritten. */
  lemma PullSkipTestNotMirrored(local: map<string, LocalFile>, remote: map<string, StorageObject>,
                                localBase: string, zoneName: string, k: string)
    requires k in local && k in remote && local[k].length == remote[k].length
    ensures local[k].lastChanged < remote[k].lastChanged ==> DownloadRule(local, remote, localBase, zoneName)(k) == None
    ensures remote[k].lastChanged < local[k].lastChanged ==> DownloadRule(local, remote, localBase, zoneName)(k).Some?
  {
  }

  /** The download request never names the object's own key: it has one
      separator more, between the object's path and its name. */
  lemma DownloadUrlIsNotKey(objects: seq<StorageObject>, exclude: seq<string>, glob: Matcher, k: string)
    requires k in RemoteFileMap(objects, exclude, glob)
    ensures var o := RemoteFileMap(objects, exclude, glob)[k];
      k == o.path + o.objectName && o.path + "/" + o.objectName != k
  {
    var o := RemoteFileMap(objects, exclude, glob)[k];
    assert |o.path + "/" + o.objectName| == |k| + 1;
  }

  lemma DoubledSeparator()
    ensures "/myzone/dir/" + "/" + "a.txt" == "/myzone/dir//a.txt"
    ensures "/myzone/dir/" + "a.txt" == "/myzone/dir/a.txt"
  {
  }

  /** An object `a.txt` in a sub-directory `dir` of zone `myzone`: the key
      is `/myzone/dir/a.txt`, the request asks for `/myzone/dir//a.txt`. */
  lemma DownloadUrlExample(localBase: string)
    ensures var o := StorageObject("/myzone/dir/", "a.txt", 1, 0, false);
      var step := DownloadRule(map[], map[RemoteKey(o) := o], localBase, "myzone")(RemoteKey(o));
      RemoteKey(o) == "/myzone/dir/a.txt" && step.Some? && step.value.url == "/myzone/dir//a.txt"
  {
    DoubledSeparator();
  }

  lemma KeyUnderZone()
    ensures Parse("/myzone/a.txt") == [RootDir, Normal("myzone")] + Normalize(Split("a.txt"))
  {
    assert "/myzone/a.txt" == "/" + "myzone" + "/" + "a.txt";
    ZonePrefix("myzone", "a.txt");
  }

  lemma TargetUnderBase()
    ensures GetPath("/local/base", "myzone", "/myzone/a.txt") == Parse("/local/base/a.txt")
  {
    assert "/myzone/a.txt" == "/" + "myzone" + "/" + "a.txt";
    assert "/local/base/a.txt" == "/local/base" + "/" + "a.txt";
    GetPathOfKey("/local/base", "myzone", "a.txt");
  }

  lemma BaseComponents()
    ensures Parse("/local/base/a.txt") == [RootDir, Normal("local")] + Normalize(Split("base/a.txt"))
  {
    assert "/local/base/a.txt" == "/" + "local" + "/" + "base/a.txt";
    ZonePrefix("local", "base/a.txt");
  }

  /** Pull removes the file the key names, not the file the key maps to:
      under base `/local/base`, the key `/myzone/a.txt` downloads to
      `/local/base/a.txt` but its removal asks for `/myzone/a.txt`. */
  lemma RemovalPathExample()
    ensures Parse("/myzone/a.txt") != GetPath("/local/base", "myzone", "/myzone/a.txt")
  {
    KeyUnderZone();
    TargetUnderBase();
    BaseComponents();
    assert Parse("/myzone/a.txt")[1] == Normal("myzone");
    assert Parse("/local/base/a.txt")[1] == Normal("local");
  }

  /** A successful live push without `delete` that uploads anything leaves
      one object changed in the zone, the stripped destination, holding the
      last file uploaded; the local side is as it was. */
  lemma PushOverwritesOneObject(e: Env, localOrder: seq<string>, remoteOrder: seq<string>,
                                local: map<string, LocalFile>, remote: map<string, StorageObject>,
                                destination: string, exclude: seq<string>, glob: Matcher)
    requires var plan := PushPlan(localOrder, remoteOrder, local, remote, destination, false, exclude, glob);
      plan != [] && Exec(e, plan).1.Ok?
    ensures var plan := PushPlan(localOrder, remoteOrder, local, remote, destination, false, exclude, glob);
      var last := plan[|plan| - 1];
      last.Upload? && last.source in e.files
      && Exec(e, plan).0.store == e.store[destination := e.files[last.source]]
      && Exec(e, plan).0.files == e.files
  {
    var plan := PushPlan(localOrder, remoteOrder, local, remote, destination, false, exclude, glob);
    PushTargets(local, remote, destination, exclude, glob, localOrder);
    assert plan == Plan(localOrder, UploadRule(local, remote, destination, exclude, glob));
    forall i | 0 <= i < |plan| ensures plan[i].Upload? && plan[i].destination == destination {
      assert plan[i] in plan;
    }
    UploadsShareDestination(e, plan, destination);
    PlansStayOnTheirSide(localOrder, remoteOrder, local, remote, destination, "", "", false, exclude, glob);
    ExecFrame(e, plan);
  }

  /** A successful live pull without `delete` leaves every download whose
      target no later download maps to holding the object it fetched, the
      path, a separator and the name, as the zone held it; a non-empty
      parent of the target is there, and the zone is as it was. */
  lemma PullWritesTargets(e: Env, remoteOrder: seq<string>, localOrder: seq<string>,
                          local: map<string, LocalFile>, remote: map<string, StorageObject>,
                          localBase: string, zoneName: string, i: nat)
    requires var plan := PullPlan(remoteOrder, localOrder, local, remote, localBase, zoneName, false);
      i < |plan| && Exec(e, plan).1.Ok?
      && forall j :: i < j < |plan| ==>
           GetPath(localBase, zoneName, plan[j].key) != GetPath(localBase, zoneName, plan[i].key)
    ensures var plan := PullPlan(remoteOrder, localOrder, local, remote, localBase, zoneName, false);
      var a := plan[i];
      var after := Exec(e, plan).0;
      a.Download? && a.key in remote
      && a.url == remote[a.key].path + "/" + remote[a.key].objectName
      && a.target == GetPath(localBase, zoneName, a.key)
      && a.target in after.files
      && after.files[a.target] == (if a.url in e.store then e.store[a.url] else [])
      && (Parent(a.target).Some? && Parent(a.target).value != [] ==> Present(after, Parent(a.target).value))
      && after.store == e.store
  {
    var plan := PullPlan(remoteOrder, localOrder, local, remote, localBase, zoneName, false);
    assert plan == Plan(remoteOrder, DownloadRule(local, remote, localBase, zoneName));
    PullTargets(local, remote, localBase, zoneName, remoteOrder);
    forall j | 0 <= j < |plan|
      ensures plan[j].Download? && plan[j].target == GetPath(localBase, zoneName, plan[j].key)
    {
      assert plan[j] in plan;
    }
    PlansStayOnTheirSide(localOrder, remoteOrder, local, remote, "", localBase, zoneName, false, [], (n, p) => false);
    ExecDownloadLands(e, plan, i);
    ExecFrame(e, plan);
  }

  /** The outcome of `sync_to_remote` from a world `e`, given the listing
      of the zone, the local walk and the two iteration orders: a listing
      or walk error ends it before any action; otherwise the push plan is
      run. */
  ghost function PushOutcome(e: Env, list: Listing, rank: string -> nat, walk: Result<seq<LocalFile>>,
                             target: string, dryRun: bool, delete: bool, exclude: seq<string>, glob: Matcher,
                             localOrder: seq<string>, remoteOrder: seq<string>): (Env, Result<()>)
    requires Acyclic(list, rank)
  {
    var destination := StripZonePrefix(target);
    var zoneName := ZoneName(destination);
    match Traverse(list, rank, [destination], [])
    case Err(err) => (e, Err(err))
    case Ok(objects) =>
      match walk
      case Err(err) => (e, Err(err))
      case Ok(files) =>
        Run(e, PushPlan(localOrder, remoteOrder, LocalFileMap(files, zoneName, exclude, glob),
                        RemoteFileMap(objects, exclude, glob), destination, delete, exclude, glob), dryRun)
  }

  /** The outcome of `sync_to_local`, in the same terms. */
  ghost function PullOutcome(e: Env, list: Listing, rank: string -> nat, walk: Result<seq<LocalFile>>,
                             localBase: string, source: string, dryRun: bool, delete: bool,
                             exclude: seq<string>, glob: Matcher,
                             remoteOrder: seq<string>, localOrder: seq<string>): (Env, Result<()>)
    requires Acyclic(list, rank)
  {
    var remotePath := StripZonePrefix(source);
    var zoneName := ZoneName(remotePath);
    match Traverse(list, rank, [remotePath], [])
    case Err(err) => (e, Err(err))
    case Ok(objects) =>
      match walk
      case Err(err) => (e, Err(err))
      case Ok(files) =>
        Run(e, PullPlan(remoteOrder, localOrder, LocalFileMap(files, zoneName, exclude, glob),
                        RemoteFileMap(objects, exclude, glob), localBase, zoneName, delete), dryRun)
  }

  /** Push never changes a local file or directory, and pull never changes
      the zone, whatever happens; a dry run of either issues no call and
      changes nothing on either side. */
  lemma OutcomeFrames(e: Env, list: Listing, rank: string -> nat, walk: Result<seq<LocalFile>>,
                      localBase: string, zoneArg: string, dryRun: bool, delete: bool,
                      exclude: seq<string>, glob: Matcher, localOrder: seq<string>, remoteOrder: seq<string>)
    requires Acyclic(list, rank)
    ensures var push := PushOutcome(e, list, rank, walk, zoneArg, dryRun, delete, exclude, glob, localOrder, remoteOrder).0;
      push.files == e.files && push.dirs == e.dirs
      && (dryRun ==> push.trace == e.trace && push.store == e.store)
    ensures var pull := PullOutcome(e, list, rank, walk, localBase, zoneArg, dryRun, delete, exclude, glob, remoteOrder, localOrder).0;
      pull.store == e.store
      && (dryRun ==> pull.trace == e.trace && pull.files == e.files && pull.dirs == e.dirs)
  {
    var path := StripZonePrefix(zoneArg);
    var zoneName := ZoneName(path);
    if Traverse(list, rank, [path], []).Ok? && walk.Ok? {
      var local := LocalFileMap(walk.value, zoneName, exclude, glob);
      var remote := RemoteFileMap(Traverse(list, rank, [path], []).value, exclude, glob);
      var push := PushPlan(localOrder, remoteOrder, local, remote, path, delete, exclude, glob);
      var pull := PullPlan(remoteOrder, localOrder, local, remote, localBase, zoneName, delete);
      PlansStayOnTheirSide(localOrder, remoteOrder, local, remote, path, localBase, zoneName, delete, exclude, glob);
      ExecFrame(e, push);
      ExecFrame(e, pull);
    }
  }
}

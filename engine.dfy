/** `sync_to_remote` and `sync_to_local`: list the zone, walk the local
    directory, build the two lookup maps, then loop over one map's keys and
    act on the world, stopping at the first failure. Each loop visits the
    keys of a hash map in an order the model leaves open: the loops pick
    any key not yet visited and return the order they used. */
module Engine {
  import opened Common
  import opened Paths
  import opened Storage
  import opened Local
  import opened FileMaps
  import opened Effects
  import opened RemoteWalk
  import opened Plans

  /** The body of a loop turn that acts: report the action in a dry run;
      otherwise issue its calls one by one, each failure ending it, and
      report it last. */
  method Carry(w: World, a: Action, dryRun: bool) returns (r: Result<()>)
    modifies w
    ensures (w.State(), r) == Step(old(w.State()), a, dryRun)
  {
    if dryRun {
      w.Say(WouldDo(a));
      return Ok(());
    }
    match a {
      case Upload(_, source, destination) =>
        var data := w.Read(source);
        if data.Err? {
          return Err(data.error);
        }
        r := w.Put(destination, data.value);
        if r.Err? {
          return;
        }
      case Download(_, url, target) =>
        var data := w.Get(url);
        if data.Err? {
          return Err(data.error);
        }
        ghost var fetched := w.State();
        var parent := Parent(target);
        if parent.Some? && !w.Exists(parent.value) {
          r := w.MakeDirs(parent.value);
          if r.Err? {
            return;
          }
        }
        assert (w.State(), Ok(())) == PrepareParent(fetched, target);
        r := w.Write(target, data.value);
        if r.Err? {
          return;
        }
      case DeleteRemote(key) =>
        r := w.Delete(key);
        if r.Err? {
          return;
        }
      case RemoveLocal(key) =>
        r := w.Remove(Parse(key));
        if r.Err? {
          return;
        }
    }
    w.Say(Done(a));
    r := Ok(());
  }

  /** There is one successful result carrying nothing. */
  lemma OkIsUnit(r: Result<()>)
    requires r.Ok?
    ensures r == Ok(())
  {
    match r.value { case () => }
  }

  /** What one loop turn does with the step's choice for its key: nothing,
      or one step of the run. */
  function Turn(e: Env, choice: Option<Action>, dryRun: bool): (Env, Result<()>)
  {
    match choice
    case None => (e, Ok(()))
    case Some(a) => Step(e, a, dryRun)
  }

  /** One more key visited: the run of the longer key list is the run so
      far followed by the turn for that key. */
  lemma Advance(e: Env, s: Env, before: seq<string>, key: string, step: string -> Option<Action>, dryRun: bool)
    requires Run(e, Plan(before, step), dryRun).0 == s && Run(e, Plan(before, step), dryRun).1.Ok?
    ensures Run(e, Plan(before + [key], step), dryRun) == Turn(s, step(key), dryRun)
  {
    PlanSnoc(before, key, step);
    if step(key).Some? {
      RunSnoc(e, Plan(before, step), step(key).value, dryRun);
    } else {
      assert Plan(before + [key], step) == Plan(before, step);
      OkIsUnit(Run(e, Plan(before, step), dryRun).1);
    }
  }

  /** Bookkeeping of a visit: the order grows by the key taken from the
      keys still pending. */
  lemma Visit(order: seq<string>, keys: set<string>, pending: set<string>, key: string)
    requires pending <= keys && key in pending && Enumerates(order, keys - pending)
    ensures pending - {key} <= keys && Enumerates(order + [key], keys - (pending - {key}))
  {
    EnumeratesSnoc(order, keys - pending, key);
    assert keys - (pending - {key}) == (keys - pending) + {key};
  }

  /** After a failure the keys not yet visited would have come in some
      order; whatever it is, the run is the one that already failed. */
  lemma Abandon(e: Env, order: seq<string>, keys: set<string>, pending: set<string>,
                step: string -> Option<Action>, dryRun: bool) returns (full: seq<string>)
    requires pending <= keys && Enumerates(order, keys - pending) && Run(e, Plan(order, step), dryRun).1.Err?
    ensures Enumerates(full, keys)
    ensures Run(e, Plan(full, step), dryRun) == Run(e, Plan(order, step), dryRun)
  {
    var rest := Enumerate(pending);
    EnumeratesJoin(order, keys - pending, rest, pending);
    assert (keys - pending) + pending == keys;
    full := order + rest;
    PlanAppend(order, rest, step);
    RunAppend(e, Plan(order, step), Plan(rest, step), dryRun);
  }

  /** `sync_to_remote`, body of the first loop: skip a file whose name is
      excluded or of which the zone holds an up-to-date copy under the same
      key; upload any other file to the destination. */
  method PushKey(w: World, local: map<string, LocalFile>, remote: map<string, StorageObject>, key: string,
                 destination: string, dryRun: bool, exclude: seq<string>, glob: Matcher) returns (r: Result<()>)
    requires key in local
    modifies w
    ensures (w.State(), r) == Turn(old(w.State()), UploadRule(local, remote, destination, exclude, glob)(key), dryRun)
  {
    var file := local[key];
    if IsExcluded(LocalName(file), exclude, glob) {
      return Ok(());
    }
    if key in remote && UpToDate(file, remote[key]) {
      return Ok(());
    }
    r := Carry(w, Upload(key, file.path, destination), dryRun);
  }

  /** `sync_to_remote`, first loop: visit every local key in some order. */
  method UploadChanged(w: World, local: map<string, LocalFile>, remote: map<string, StorageObject>,
                       destination: string, dryRun: bool, exclude: seq<string>, glob: Matcher)
    returns (r: Result<()>, ghost order: seq<string>)
    modifies w
    ensures Enumerates(order, local.Keys)
    ensures (w.State(), r) == Run(old(w.State()), Plan(order, UploadRule(local, remote, destination, exclude, glob)), dryRun)
  {
    ghost var e0 := w.State();
    ghost var rule := UploadRule(local, remote, destination, exclude, glob);
    var pending := local.Keys;
    order := [];
    RunEmpty(e0, dryRun);
    while pending != {}
      invariant pending <= local.Keys
      invariant Enumerates(order, local.Keys - pending)
      invariant Run(e0, Plan(order, rule), dryRun).0 == w.State() && Run(e0, Plan(order, rule), dryRun).1.Ok?
      decreases |pending|
    {
      var key :| key in pending;
      Visit(order, local.Keys, pending, key);
      Advance(e0, w.State(), order, key, rule, dryRun);
      order, pending := order + [key], pending - {key};
      r := PushKey(w, local, remote, key, destination, dryRun, exclude, glob);
      if r.Err? {
        order := Abandon(e0, order, local.Keys, pending, rule, dryRun);
        return;
      }
    }
    r := Ok(());
    OkIsUnit(Run(e0, Plan(order, rule), dryRun).1);
  }

  /** Body of the second loop of either direction: a key the other map
      lacks is deleted, from the zone when `remoteSide`, else from the
      local disk. */
  method DeleteKey(w: World, key: string, keep: set<string>, remoteSide: bool, dryRun: bool) returns (r: Result<()>)
    modifies w
    ensures (w.State(), r) == Turn(old(w.State()), DeleteRule(keep, remoteSide)(key), dryRun)
  {
    if key in keep {
      return Ok(());
    }
    var action := if remoteSide then DeleteRemote(key) else RemoveLocal(key);
    r := Carry(w, action, dryRun);
  }

  /** The second loop of either direction, run with `--delete`: visit every
      key of the map walked in some order. */
  method DeleteMissing(w: World, keys: set<string>, keep: set<string>, remoteSide: bool, dryRun: bool)
    returns (r: Result<()>, ghost order: seq<string>)
    modifies w
    ensures Enumerates(order, keys)
    ensures (w.State(), r) == Run(old(w.State()), Plan(order, DeleteRule(keep, remoteSide)), dryRun)
  {
    ghost var e0 := w.State();
    ghost var rule := DeleteRule(keep, remoteSide);
    var pending := keys;
    order := [];
    RunEmpty(e0, dryRun);
    while pending != {}
      invariant pending <= keys
      invariant Enumerates(order, keys - pending)
      invariant Run(e0, Plan(order, rule), dryRun).0 == w.State() && Run(e0, Plan(order, rule), dryRun).1.Ok?
      decreases |pending|
    {
      var key :| key in pending;
      Visit(order, keys, pending, key);
      Advance(e0, w.State(), order, key, rule, dryRun);
      order, pending := order + [key], pending - {key};
      r := DeleteKey(w, key, keep, remoteSide, dryRun);
      if r.Err? {
        order := Abandon(e0, order, keys, pending, rule, dryRun);
        return;
      }
    }
    r := Ok(());
    OkIsUnit(Run(e0, Plan(order, rule), dryRun).1);
  }

  /** `sync_to_local`, body of the first loop: skip an object of which an
      up-to-date local copy is under the same key; download any other one
      to its place below the local base. */
  method PullKey(w: World, local: map<string, LocalFile>, remote: map<string, StorageObject>, key: string,
                 localBase: string, zoneName: string, dryRun: bool) returns (r: Result<()>)
    requires key in remote
    modifies w
    ensures (w.State(), r) == Turn(old(w.State()), DownloadRule(local, remote, localBase, zoneName)(key), dryRun)
  {
    var entry := remote[key];
    if key in local && UpToDate(local[key], entry) {
      return Ok(());
    }
    var target := GetPath(localBase, zoneName, key);
    r := Carry(w, Download(key, entry.path + "/" + entry.objectName, target), dryRun);
  }

  /** `sync_to_local`, first loop: visit every remote key in some order. */
  method DownloadChanged(w: World, local: map<string, LocalFile>, remote: map<string, StorageObject>,
                         localBase: string, zoneName: string, dryRun: bool)
    returns (r: Result<()>, ghost order: seq<string>)
    modifies w
    ensures Enumerates(order, remote.Keys)
    ensures (w.State(), r) == Run(old(w.State()), Plan(order, DownloadRule(local, remote, localBase, zoneName)), dryRun)
  {
    ghost var e0 := w.State();
    ghost var rule := DownloadRule(local, remote, localBase, zoneName);
    var pending := remote.Keys;
    order := [];
    RunEmpty(e0, dryRun);
    while pending != {}
      invariant pending <= remote.Keys
      invariant Enumerates(order, remote.Keys - pending)
      invariant Run(e0, Plan(order, rule), dryRun).0 == w.State() && Run(e0, Plan(order, rule), dryRun).1.Ok?
      decreases |pending|
    {
      var key :| key in pending;
      Visit(order, remote.Keys, pending, key);
      Advance(e0, w.State(), order, key, rule, dryRun);
      order, pending := order + [key], pending - {key};
      r := PullKey(w, local, remote, key, localBase, zoneName, dryRun);
      if r.Err? {
        order := Abandon(e0, order, remote.Keys, pending, rule, dryRun);
        return;
      }
    }
    r := Ok(());
    OkIsUnit(Run(e0, Plan(order, rule), dryRun).1);
  }

  /** `sync_to_remote`: strip `zone://` from the destination, list the zone
      below it, walk the local directory, build both maps, upload, and with
      `delete` delete the remote keys the local map lacks. */
  method SyncToRemote(w: World, list: Listing, ghost rank: string -> nat, walk: Result<seq<LocalFile>>,
                      target: string, dryRun: bool, delete: bool, exclude: seq<string>, glob: Matcher)
    returns (r: Result<()>, ghost localOrder: seq<string>, ghost remoteOrder: seq<string>)
    requires Acyclic(list, rank)
    modifies w
    ensures (w.State(), r) == PushOutcome(old(w.State()), list, rank, walk, target, dryRun, delete, exclude, glob, localOrder, remoteOrder)
    ensures var listed := Traverse(list, rank, [StripZonePrefix(target)], []);
      listed.Ok? && walk.Ok? ==>
        Enumerates(localOrder, LocalFileMap(walk.value, ZoneName(StripZonePrefix(target)), exclude, glob).Keys)
        && Enumerates(remoteOrder, RemoteFileMap(listed.value, exclude, glob).Keys)
  {
    localOrder, remoteOrder := [], [];
    var destination := StripZonePrefix(target);
    var zoneName := ZoneName(destination);
    var listed: Result<seq<StorageObject>>;
    ghost var visited: seq<string>;
    listed, visited := GetAllObjects(list, rank, destination);
    if listed.Err? {
      return Err(listed.error), localOrder, remoteOrder;
    }
    if walk.Err? {
      return Err(walk.error), localOrder, remoteOrder;
    }
    var remote := RemoteFileMap(listed.value, exclude, glob);
    var local := LocalFileMap(walk.value, zoneName, exclude, glob);
    ghost var e0 := w.State();
    r, localOrder := UploadChanged(w, local, remote, destination, dryRun, exclude, glob);
    ghost var uploads := Plan(localOrder, UploadRule(local, remote, destination, exclude, glob));
    if r.Err? || !delete {
      remoteOrder := Enumerate(remote.Keys);
      ghost var deletes := if delete then Plan(remoteOrder, DeleteRule(local.Keys, true)) else [];
      RunAppend(e0, uploads, deletes, dryRun);
      if !delete {
        assert uploads + deletes == uploads;
        RunEmpty(w.State(), dryRun);
      }
      return;
    }
    r, remoteOrder := DeleteMissing(w, remote.Keys, local.Keys, true, dryRun);
    RunAppend(e0, uploads, Plan(remoteOrder, DeleteRule(local.Keys, true)), dryRun);
  }

  /** `sync_to_local`: strip `zone://` from the source, list the zone below
      it, walk the local directory, build both maps, download, and with
      `delete` remove the local keys the remote map lacks. */
  method SyncToLocal(w: World, list: Listing, ghost rank: string -> nat, walk: Result<seq<LocalFile>>,
                     localBase: string, source: string, dryRun: bool, delete: bool, exclude: seq<string>, glob: Matcher)
    returns (r: Result<()>, ghost remoteOrder: seq<string>, ghost localOrder: seq<string>)
    requires Acyclic(list, rank)
    modifies w
    ensures (w.State(), r) == PullOutcome(old(w.State()), list, rank, walk, localBase, source, dryRun, delete, exclude, glob, remoteOrder, localOrder)
    ensures var listed := Traverse(list, rank, [StripZonePrefix(source)], []);
      listed.Ok? && walk.Ok? ==>
        Enumerates(remoteOrder, RemoteFileMap(listed.value, exclude, glob).Keys)
        && Enumerates(localOrder, LocalFileMap(walk.value, ZoneName(StripZonePrefix(source)), exclude, glob).Keys)
  {
    remoteOrder, localOrder := [], [];
    var remotePath := StripZonePrefix(source);
    var zoneName := ZoneName(remotePath);
    var listed: Result<seq<StorageObject>>;
    ghost var visited: seq<string>;
    listed, visited := GetAllObjects(list, rank, remotePath);
    if listed.Err? {
      return Err(listed.error), remoteOrder, localOrder;
    }
    if walk.Err? {
      return Err(walk.error), remoteOrder, localOrder;
    }
    var remote := RemoteFileMap(listed.value, exclude, glob);
    var local := LocalFileMap(walk.value, zoneName, exclude, glob);
    ghost var e0 := w.State();
    r, remoteOrder := DownloadChanged(w, local, remote, localBase, zoneName, dryRun);
    ghost var downloads := Plan(remoteOrder, DownloadRule(local, remote, localBase, zoneName));
    if r.Err? || !delete {
      localOrder := Enumerate(local.Keys);
      ghost var removals := if delete then Plan(localOrder, DeleteRule(remote.Keys, false)) else [];
      RunAppend(e0, downloads, removals, dryRun);
      if !delete {
        assert downloads + removals == downloads;
        RunEmpty(w.State(), dryRun);
      }
      return;
    }
    r, localOrder := DeleteMissing(w, local.Keys, remote.Keys, false, dryRun);
    RunAppend(e0, downloads, Plan(localOrder, DeleteRule(remote.Keys, false)), dryRun);
  }
}

/** The world the synchronisation acts on: the objects of the storage zone,
    the local filesystem, the calls made so far and the lines reported.
    Every external call may fail; which calls fail is fixed in advance by
    `faults`, keyed by the call's position in the run, so that a run is a
    function of its starting state. */
module Effects {
  import opened Common
  import opened Paths
  import opened Storage

  /** An injected failure: the server answers with this status, or the
      request gets no answer at all. A local call fails whatever the kind. */
  datatype Fault = Status(code: int) | Dropped

  /** One external call, as it was issued. */
  datatype Call =
    | ReadCall(file: Path)
    | PutCall(path: string, data: Bytes)
    | GetCall(path: string)
    | MakeDirsCall(dir: Path)
    | WriteCall(file: Path, data: Bytes)
    | RemoveCall(file: Path)
    | DeleteCall(path: string)

  /** One thing a run decides to do. */
  datatype Action =
    | Upload(key: string, source: Path, destination: string)   // read `source`, put it at `destination`
    | Download(key: string, url: string, target: Path)          // get `url`, write it to `target`
    | DeleteRemote(key: string)                                 // delete the object `key`
    | RemoveLocal(key: string)                                  // remove the file named by `key`

  /** A reported line: an action performed, or one a dry run would perform. */
  datatype Line = Done(action: Action) | WouldDo(action: Action)

  datatype Env = Env(
    store: map<string, Bytes>,   // the zone's objects, by path
    files: map<Path, Bytes>,     // local files, by path
    dirs: set<Path>,             // local directories
    trace: seq<Call>,            // every call issued so far
    out: seq<Line>,              // every line reported so far
    faults: map<nat, Fault>)     // which call (by position) fails, and how

  function Issue(e: Env, c: Call): (e': Env)
    ensures e'.trace == e.trace + [c]
  {
    e.(trace := e.trace + [c])
  }

  /** The outcome of a storage request on `path`: an injected fault, or the
      server's own answer (a success when the object is there, 404 when a
      request needs an object that is not). */
  function RemoteStatus(e: Env, path: string, found: bool): (r: Result<()>)
    ensures |e.trace| !in e.faults ==> (r.Ok? <==> found)
    ensures |e.trace| in e.faults && e.faults[|e.trace|] == Dropped ==> r == Err(Transport)
  {
    var n := |e.trace|;
    if n in e.faults then
      match e.faults[n]
      case Dropped => Err(Transport)
      case Status(code) => Classify(code, path)
    else if found then Ok(())
    else Classify(404, path)
  }

  /** The outcome of a filesystem call that the filesystem itself allows
      exactly when `allowed`. */
  function LocalStatus(e: Env, allowed: bool): (r: Result<()>)
    ensures r.Ok? <==> |e.trace| !in e.faults && allowed
    ensures r.Err? ==> r.error == Io
  {
    if |e.trace| in e.faults || !allowed then Err(Io) else Ok(())
  }

  /** `std::fs::read`. */
  function ReadStep(e: Env, file: Path): (Env, Result<Bytes>)
  {
    var status := LocalStatus(e, file in e.files);
    (Issue(e, ReadCall(file)), if status.Ok? then Ok(e.files[file]) else Err(status.error))
  }

  /** `put_object`. */
  function PutStep(e: Env, path: string, data: Bytes): (Env, Result<()>)
  {
    var status := RemoteStatus(e, path, true);
    var e' := Issue(e, PutCall(path, data));
    (if status.Ok? then e'.(store := e.store[path := data]) else e', status)
  }

  /** `get_object`. */
  function GetStep(e: Env, path: string): (Env, Result<Bytes>)
  {
    var status := RemoteStatus(e, path, path in e.store);
    var body := if path in e.store then e.store[path] else [];
    (Issue(e, GetCall(path)), if status.Ok? then Ok(body) else Err(status.error))
  }

  /** `delete_object`. */
  function DeleteStep(e: Env, path: string): (Env, Result<()>)
  {
    var status := RemoteStatus(e, path, path in e.store);
    var e' := Issue(e, DeleteCall(path));
    (if status.Ok? then e'.(store := e.store - {path}) else e', status)
  }

  /** The directories `create_dir_all` makes: the path and all its ancestors. */
  function Ancestry(dir: Path): set<Path>
  {
    set i | 1 <= i <= |dir| :: dir[..i]
  }

  /** `std::fs::create_dir_all`: fails when a file is in the way. */
  function MakeDirsStep(e: Env, dir: Path): (Env, Result<()>)
  {
    var status := LocalStatus(e, forall d | d in Ancestry(dir) :: d !in e.files);
    var e' := Issue(e, MakeDirsCall(dir));
    (if status.Ok? then e'.(dirs := e.dirs + Ancestry(dir)) else e', status)
  }

  /** `std::fs::write`: fails when a directory is in the way. */
  function WriteStep(e: Env, file: Path, data: Bytes): (Env, Result<()>)
  {
    var status := LocalStatus(e, file !in e.dirs);
    var e' := Issue(e, WriteCall(file, data));
    (if status.Ok? then e'.(files := e.files[file := data]) else e', status)
  }

  /** `std::fs::remove_file`: fails when there is no such file. */
  function RemoveStep(e: Env, file: Path): (Env, Result<()>)
  {
    var status := LocalStatus(e, file in e.files);
    var e' := Issue(e, RemoveCall(file));
    (if status.Ok? then e'.(files := e.files - {file}) else e', status)
  }

  /** `Path::exists`. */
  predicate Present(e: Env, p: Path)
  {
    p in e.dirs || p in e.files
  }

  /** Create the parent of `target` when it is missing. */
  function PrepareParent(e: Env, target: Path): (Env, Result<()>)
  {
    match Parent(target)
    case Some(dir) => if !Present(e, dir) then MakeDirsStep(e, dir) else (e, Ok(()))
    case None => (e, Ok(()))
  }

  function Report(e: Env, line: Line): (e': Env)
    ensures e'.out == e.out + [line]
  {
    e.(out := e.out + [line])
  }

  /** Carry out one action the way the synchronisation loops do: every
      call in turn, the first failure ends it, the line comes last. */
  function Perform(e: Env, a: Action): (Env, Result<()>)
  {
    match a
    case Upload(_, source, destination) =>
      var (e1, read) := ReadStep(e, source);
      if read.Err? then (e1, Err(read.error))
      else
        var (e2, put) := PutStep(e1, destination, read.value);
        if put.Err? then (e2, put) else (Report(e2, Done(a)), Ok(()))
    case Download(_, url, target) =>
      var (e1, got) := GetStep(e, url);
      if got.Err? then (e1, Err(got.error))
      else
        var (e2, made) := PrepareParent(e1, target);
        if made.Err? then (e2, made)
        else
          var (e3, wrote) := WriteStep(e2, target, got.value);
          if wrote.Err? then (e3, wrote) else (Report(e3, Done(a)), Ok(()))
    case DeleteRemote(key) =>
      var (e1, deleted) := DeleteStep(e, key);
      if deleted.Err? then (e1, deleted) else (Report(e1, Done(a)), Ok(()))
    case RemoveLocal(key) =>
      var (e1, removed) := RemoveStep(e, Parse(key));
      if removed.Err? then (e1, removed) else (Report(e1, Done(a)), Ok(()))
  }

  /** Carry out a plan in order, stopping at the first failure. */
  function Exec(e: Env, plan: seq<Action>): (Env, Result<()>)
  {
    if plan == [] then (e, Ok(()))
    else
      var (e1, r) := Exec(e, plan[..|plan| - 1]);
      if r.Err? then (e1, r) else Perform(e1, plan[|plan| - 1])
  }

  function Reported(plan: seq<Action>): (lines: seq<Line>)
    ensures |lines| == |plan|
    ensures forall i :: 0 <= i < |plan| ==> lines[i] == Done(plan[i])
  {
    seq(|plan|, i requires 0 <= i < |plan| => Done(plan[i]))
  }

  function Announced(plan: seq<Action>): (lines: seq<Line>)
    ensures |lines| == |plan|
    ensures forall i :: 0 <= i < |plan| ==> lines[i] == WouldDo(plan[i])
  {
    seq(|plan|, i requires 0 <= i < |plan| => WouldDo(plan[i]))
  }

  /** A run of a plan: a dry run only reports; a live run executes. */
  function Run(e: Env, plan: seq<Action>, dryRun: bool): (Env, Result<()>)
  {
    if dryRun then (e.(out := e.out + Announced(plan)), Ok(()))
    else Exec(e, plan)
  }

  /** One turn of a synchronisation loop that acts: a dry run reports the
      action it would take, a live run performs it. */
  function Step(e: Env, a: Action, dryRun: bool): (Env, Result<()>)
  {
    if dryRun then (Report(e, WouldDo(a)), Ok(())) else Perform(e, a)
  }

  /** A run of `p + q` is a run of `p` and, if that succeeded, a run of `q`
      from where it left off. */
  lemma RunAppend(e: Env, p: seq<Action>, q: seq<Action>, dryRun: bool)
    ensures Run(e, p, dryRun).1.Err? ==> Run(e, p + q, dryRun) == Run(e, p, dryRun)
    ensures Run(e, p, dryRun).1.Ok? ==> Run(e, p + q, dryRun) == Run(Run(e, p, dryRun).0, q, dryRun)
  {
    if dryRun {
      assert Announced(p + q) == Announced(p) + Announced(q);
      assert e.out + Announced(p + q) == (e.out + Announced(p)) + Announced(q);
    } else {
      ExecAppend(e, p, q);
    }
  }

  /** An empty run changes nothing. */
  lemma RunEmpty(e: Env, dryRun: bool)
    ensures Run(e, [], dryRun) == (e, Ok(()))
  {
    assert e.out + Announced([]) == e.out;
  }

  /** A run one action longer takes one more step. */
  lemma RunSnoc(e: Env, p: seq<Action>, a: Action, dryRun: bool)
    requires Run(e, p, dryRun).1.Ok?
    ensures Run(e, p + [a], dryRun) == Step(Run(e, p, dryRun).0, a, dryRun)
  {
    RunAppend(e, p, [a], dryRun);
    assert [a][..0] == [];
    assert Announced([a]) == [WouldDo(a)];
  }

  /** Running `p` then `q` is running `p`, then `q` only if `p` succeeded. */
  lemma {:induction false} ExecAppend(e: Env, p: seq<Action>, q: seq<Action>)
    ensures Exec(e, p).1.Err? ==> Exec(e, p + q) == Exec(e, p)
    ensures Exec(e, p).1.Ok? ==> Exec(e, p + q) == Exec(Exec(e, p).0, q)
  {
    if q == [] {
      assert p + q == p;
    } else {
      ExecAppend(e, p, q[..|q| - 1]);
      assert (p + q)[..|p + q| - 1] == p + q[..|q| - 1];
      assert (p + q)[|p + q| - 1] == q[|q| - 1];
    }
  }

  /** One action reports its line exactly when it succeeds, and never
      forgets a call it made or the failures to come. */
  lemma PerformReports(e: Env, a: Action)
    ensures Perform(e, a).1.Ok? ==> Perform(e, a).0.out == e.out + [Done(a)]
    ensures Perform(e, a).1.Err? ==> Perform(e, a).0.out == e.out
    ensures Perform(e, a).0.faults == e.faults
    ensures e.trace <= Perform(e, a).0.trace
  {
    match a
    case Upload(_, _, _) =>
    case Download(_, _, _) =>
    case DeleteRemote(_) =>
    case RemoveLocal(_) =>
  }

  /** A failed run failed in exactly one action: every action before it
      completed and stays applied, the failing action's own calls stay
      applied, and no later action ran. The lines reported are those of
      the completed actions. */
  lemma {:induction false} ExecFirstFailure(e: Env, plan: seq<Action>) returns (k: nat)
    requires Exec(e, plan).1.Err?
    ensures k < |plan|
    ensures Exec(e, plan[..k]).1.Ok?
    ensures Perform(Exec(e, plan[..k]).0, plan[k]).1.Err?
    ensures Exec(e, plan) == Perform(Exec(e, plan[..k]).0, plan[k])
    ensures Exec(e, plan).0.out == e.out + Reported(plan[..k])
  {
    var init := plan[..|plan| - 1];
    if Exec(e, init).1.Err? {
      k := ExecFirstFailure(e, init);
      assert init[..k] == plan[..k] && init[k] == plan[k];
    } else {
      k := |plan| - 1;
      assert plan[..k] == init;
      ExecSuccessReports(e, init);
      PerformReports(Exec(e, init).0, plan[k]);
    }
  }

  /** A successful run reports one line per action, in plan order. */
  lemma {:induction false} ExecSuccessReports(e: Env, plan: seq<Action>)
    requires Exec(e, plan).1.Ok?
    ensures Exec(e, plan).0.out == e.out + Reported(plan)
  {
    if plan != [] {
      var init := plan[..|plan| - 1];
      ExecSuccessReports(e, init);
      PerformReports(Exec(e, init).0, plan[|plan| - 1]);
      assert Reported(plan) == Reported(init) + [Done(plan[|plan| - 1])];
    }
  }

  /** The action a line is about. */
  function LineActions(lines: seq<Line>): (actions: seq<Action>)
    ensures |actions| == |lines|
    ensures forall i :: 0 <= i < |lines| ==> actions[i] == lines[i].action
  {
    seq(|lines|, i requires 0 <= i < |lines| => lines[i].action)
  }

  /** A dry run issues no call, changes neither side and announces the
      plan; a live run that succeeds reports the very same actions. */
  lemma DryRunAnnouncesLiveRun(e: Env, plan: seq<Action>)
    ensures Run(e, plan, true).1.Ok?
    ensures var d := Run(e, plan, true).0;
      d.trace == e.trace && d.store == e.store && d.files == e.files && d.dirs == e.dirs
      && d.out == e.out + Announced(plan)
    ensures Run(e, plan, false).1.Ok? ==> Run(e, plan, false).0.out == e.out + Reported(plan)
    ensures LineActions(Announced(plan)) == plan == LineActions(Reported(plan))
  {
    if Run(e, plan, false).1.Ok? {
      ExecSuccessReports(e, plan);
    }
  }

  predicate RemoteOnly(plan: seq<Action>)
  {
    forall i :: 0 <= i < |plan| ==> plan[i].Upload? || plan[i].DeleteRemote?
  }

  predicate LocalOnly(plan: seq<Action>)
  {
    forall i :: 0 <= i < |plan| ==> plan[i].Download? || plan[i].RemoveLocal?
  }

  /** Uploads and remote deletes leave the local side as it was; downloads
      and local removals leave the zone as it was; failures to come are
      fixed in advance. */
  lemma {:induction false} ExecFrame(e: Env, plan: seq<Action>)
    ensures Exec(e, plan).0.faults == e.faults && e.trace <= Exec(e, plan).0.trace
    ensures RemoteOnly(plan) ==> Exec(e, plan).0.files == e.files && Exec(e, plan).0.dirs == e.dirs
    ensures LocalOnly(plan) ==> Exec(e, plan).0.store == e.store
  {
    if plan != [] {
      var init := plan[..|plan| - 1];
      assert RemoteOnly(plan) ==> RemoteOnly(init);
      assert LocalOnly(plan) ==> LocalOnly(init);
      ExecFrame(e, init);
      PerformReports(Exec(e, init).0, plan[|plan| - 1]);
      PerformSides(Exec(e, init).0, plan[|plan| - 1]);
    }
  }

  /** The side one action may change. */
  lemma PerformSides(e: Env, a: Action)
    ensures (a.Upload? || a.DeleteRemote?) ==> Perform(e, a).0.files == e.files && Perform(e, a).0.dirs == e.dirs
    ensures (a.Download? || a.RemoveLocal?) ==> Perform(e, a).0.store == e.store
  {
  }

  /** Every upload of a successful run writes the one destination it
      names: when they all name the same one, the zone ends up with that
      object holding the last file read, and nothing else changed. */
  lemma {:induction false} UploadsShareDestination(e: Env, plan: seq<Action>, destination: string)
    requires plan != [] && Exec(e, plan).1.Ok?
    requires forall i :: 0 <= i < |plan| ==> plan[i].Upload? && plan[i].destination == destination
    ensures plan[|plan| - 1].source in e.files
    ensures Exec(e, plan).0.store == e.store[destination := e.files[plan[|plan| - 1].source]]
  {
    var init := plan[..|plan| - 1];
    assert RemoteOnly(init);
    ExecFrame(e, init);
    if init != [] {
      UploadsShareDestination(e, init, destination);
    }
  }

  /** A download that succeeds writes what it fetched to its target, after
      making the target's parent when that was missing; the zone is left as
      it was. An object the zone lacks can only be fetched through an
      injected success status, and then its body is empty. */
  lemma PerformDownload(e: Env, a: Action)
    requires a.Download? && Perform(e, a).1.Ok?
    ensures Perform(e, a).0.files == e.files[a.target := if a.url in e.store then e.store[a.url] else []]
    ensures e.dirs <= Perform(e, a).0.dirs
    ensures Perform(e, a).0.store == e.store
    ensures Parent(a.target).Some? && Parent(a.target).value != [] ==>
      Present(Perform(e, a).0, Parent(a.target).value)
  {
    match Parent(a.target)
    case Some(dir) =>
      if dir != [] {
        assert dir[..|dir|] == dir;
        assert dir in Ancestry(dir);
      }
    case None =>
  }

  /** In a successful run of downloads and removals, a download whose
      target no later action touches leaves that target holding what it
      fetched from the zone as it was at the start, below a parent that
      is there. */
  lemma {:induction false} ExecDownloadLands(e: Env, plan: seq<Action>, i: nat)
    requires LocalOnly(plan) && Exec(e, plan).1.Ok?
    requires i < |plan| && plan[i].Download?
    requires forall j :: i < j < |plan| ==> plan[j].Download? && plan[j].target != plan[i].target
    ensures var a := plan[i];
      a.target in Exec(e, plan).0.files
      && Exec(e, plan).0.files[a.target] == (if a.url in e.store then e.store[a.url] else [])
    ensures var a := plan[i];
      Parent(a.target).Some? && Parent(a.target).value != [] ==>
        Present(Exec(e, plan).0, Parent(a.target).value)
  {
    var init, last := plan[..|plan| - 1], plan[|plan| - 1];
    assert LocalOnly(init);
    assert Exec(e, init).1.Ok?;
    if i == |plan| - 1 {
      ExecFrame(e, init);
      PerformDownload(Exec(e, init).0, last);
    } else {
      assert init[i] == plan[i];
      ExecDownloadLands(e, init, i);
      PerformDownload(Exec(e, init).0, last);
    }
  }

  /** The world as the synchronisation sees it, changed call by call. */
  class World {
    var store: map<string, Bytes>
    var files: map<Path, Bytes>
    var dirs: set<Path>
    var trace: seq<Call>
    var out: seq<Line>
    const faults: map<nat, Fault>

    function State(): Env
      reads this
    {
      Env(store, files, dirs, trace, out, faults)
    }

    constructor (e: Env)
      ensures State() == e
    {
      store, files, dirs, trace, out, faults := e.store, e.files, e.dirs, e.trace, e.out, e.faults;
    }

    method Become(e: Env)
      requires e.faults == faults
      modifies this
      ensures State() == e
    {
      store, files, dirs, trace, out := e.store, e.files, e.dirs, e.trace, e.out;
    }

    method Read(file: Path) returns (r: Result<Bytes>)
      modifies this
      ensures (State(), r) == ReadStep(old(State()), file)
    {
      var (e, res) := ReadStep(State(), file);
      Become(e);
      r := res;
    }

    method Put(path: string, data: Bytes) returns (r: Result<()>)
      modifies this
      ensures (State(), r) == PutStep(old(State()), path, data)
    {
      var (e, res) := PutStep(State(), path, data);
      Become(e);
      r := res;
    }

    method Get(path: string) returns (r: Result<Bytes>)
      modifies this
      ensures (State(), r) == GetStep(old(State()), path)
    {
      var (e, res) := GetStep(State(), path);
      Become(e);
      r := res;
    }

    method Delete(path: string) returns (r: Result<()>)
      modifies this
      ensures (State(), r) == DeleteStep(old(State()), path)
    {
      var (e, res) := DeleteStep(State(), path);
      Become(e);
      r := res;
    }

    method MakeDirs(dir: Path) returns (r: Result<()>)
      modifies this
      ensures (State(), r) == MakeDirsStep(old(State()), dir)
    {
      var (e, res) := MakeDirsStep(State(), dir);
      Become(e);
      r := res;
    }

    method Write(file: Path, data: Bytes) returns (r: Result<()>)
      modifies this
      ensures (State(), r) == WriteStep(old(State()), file, data)
    {
      var (e, res) := WriteStep(State(), file, data);
      Become(e);
      r := res;
    }

    method Remove(file: Path) returns (r: Result<()>)
      modifies this
      ensures (State(), r) == RemoveStep(old(State()), file)
    {
      var (e, res) := RemoveStep(State(), file);
      Become(e);
      r := res;
    }

    method Say(line: Line)
      modifies this
      ensures State() == Report(old(State()), line)
    {
      out := out + [line];
    }

    function Exists(p: Path): (r: bool)
      reads this
      ensures r == Present(State(), p)
    {
      p in dirs || p in files
    }
  }
}

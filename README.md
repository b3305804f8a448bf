# bunnysync, modelled in Dafny

bunnysync synchronises one local directory with one bunny.net storage zone,
in one direction per run:

- **push** (`sync_to_remote`): the source is a local directory and the
  destination is a `zone://` argument;
- **pull** (`sync_to_local`): the source is a `zone://` argument and the
  destination is a local directory.

Both directions build two lookup maps in one key space:

- the **remote map** comes from a recursive listing of the zone
  (`get_all_objects`); a record's key is its path followed by its name;
- the **local map** comes from a walk of the directory; a file's key is
  `/zone/` followed by its relative path.

Directories and excluded names are dropped from both maps. A run then
loops over one map and transfers every entry the other side lacks or holds
in a different version. With `--delete` it also deletes every entry the
other map lacks. The first failing call ends the run. A dry run only
reports what it would do.

The model has one module per concern:

| file | module | what it holds |
|---|---|---|
| `common.dfy` | `Common` | bytes, `Option`, `Result`, the error kinds, and an order that visits a set once (`Enumerates`) |
| `paths.dfy` | `Paths` | Unix paths as component sequences: splitting, parsing, `strip_prefix`, `push`, `parent`, `file_name` |
| `storage.dfy` | `Storage` | the storage record, the region table, `strip_zone_prefix`, `zone_name`, HTTP status classification |
| `local.dfy` | `Local` | the local walk record and `get_path`, with the source's examples as lemmas |
| `filemaps.dfy` | `FileMaps` | `is_excluded` and the two lookup maps |
| `remotewalk.dfy` | `RemoteWalk` | the worklist loop of `get_all_objects`, with its specification `Traverse` |
| `effects.dfy` | `Effects` | the zone and the filesystem as one state, each external call as a step that may fail, and the class `World` that applies those steps in place |
| `plans.dfy` | `Plans` | the decision rules of the loops, the plans they produce, and the properties of both directions |
| `engine.dfy` | `Engine` | `sync_to_remote` and `sync_to_local` as loops over `World`, proved equal to the plan run |
| `cli.dfy` | `Cli` | `is_zone`, the direction choice in `main`, and `read_config_file` on a class of parsed arguments |

A few terms used below:

- **Effects.** Every external call either succeeds or fails. Which calls
  fail is fixed in advance by a map from a call's position in the run to
  the failure. A run is therefore a function of its starting state, and
  "the first failure ends the run" can be stated exactly.
- **Plans and runs.** The engine loops are proved equal to `Run` of a
  **plan**: the list of actions that the decision rule picks, key by key,
  in the order the loop visited the keys.
- **Iteration order.** Hash maps iterate in an order the source leaves
  open. Each loop picks any key it has not visited yet, and returns the
  order it used as a ghost out-parameter.
- **Acyclic listing.** The zone listing is a parameter. The walk needs it
  to be acyclic: a rank that every sub-directory lowers.

The rule for skipping a transfer is `local <= remote` with equal lengths.
Pull uses the same test as push, not the mirrored one (src/main.rs:150-151,
src/main.rs:200-201). `Plans.PullSkipTestNotMirrored` states the
consequence.

## Model

| member | source | states |
|---|---|---|
| Storage.BaseUrl | src/storage.rs:29-42 | a region has a host exactly when it is one of the fourteen names in the table |
| Storage.RegionAliases | src/storage.rs:32-38 | `us_ny`/`ny`, `us_la`/`la` and `au`/`au_syd`/`syd` each share one host |
| Storage.RegionDefaults | src/storage.rs:37-39 | the empty region and `de` use the default host; `sa` is served by the `ja` host |
| Storage.RegionHosts | src/storage.rs:31-36 | `uk`, `sg`, `se` and `br` each have the host named after them |
| Storage.RegionUnknown | src/storage.rs:193 | `invalid` has no host |
| Storage.CliRegionsKnown | src/main.rs:20-23 | every value the command line accepts for `--region` has a host |
| Storage.StripZonePrefix | src/storage.rs:175-177 | with a leading `zone://`, the scheme followed by the result is the input; otherwise the input comes back unchanged |
| Storage.StripZonePrefixExamples | src/storage.rs:232-233 | `zone://test/path` gives `test/path`, `test/path` is unchanged, and only one scheme is removed |
| Storage.ZoneName | src/storage.rs:163-172 | empty exactly when the path is made of separators only; otherwise it is a piece without a separator that comes after empty pieces only |
| Storage.ZoneNameIs | src/storage.rs:165-169 | the first non-empty piece is the zone name |
| Storage.ZoneNameFirstPiece | src/storage.rs:163-172 | a path starting with a plain piece followed by `/` has that piece as zone name |
| Storage.ZoneNameAfterSeparator | src/storage.rs:163-172 | a leading `/` before such a path does not change its zone name |
| Storage.ZoneNameTrailingSeparator | src/storage.rs:225 | `test/` has zone `test` |
| Storage.ZoneNameNested | src/storage.rs:226 | `test/foo/bar` has zone `test` |
| Storage.ZoneNameLeadingSeparator | src/storage.rs:227 | `/test/foo/bar/` has zone `test` |
| Storage.ZoneNameEmpty | src/storage.rs:171 | the empty path has the empty zone name |
| Storage.Classify | src/storage.rs:74-87 | 401, 404 and 403 give their named errors; any 2xx gives success; every other status gives a generic error carrying the status (the same match appears at src/storage.rs:115-125, 132-142 and 149-159) |
| Paths.Parse | src/local.rs:42 | a parsed path is absolute exactly when the string starts with `/` |
| Paths.ParseWellFormed | src/local.rs:42 | a root or `.` component only ever comes first, and every name is neither empty, `.` nor `..` |
| Paths.ParseUnder | src/local.rs:50 | parsing `base/rel` gives the components of `base` followed by those of `rel` |
| Paths.JoinSplit | src/storage.rs:164 | splitting on `/` loses nothing: joining the pieces gives the string back |
| Paths.SplitJoin | src/storage.rs:164 | pieces without separators come back unchanged from their join |
| Paths.StripPrefix | src/local.rs:45-47 | a result exists exactly when the base is a component-wise prefix, and then the base followed by the result is the path |
| Paths.Push | src/local.rs:50 | pushing an absolute path replaces the base; pushing a relative path appends it |
| Paths.Parent | src/main.rs:217 | drops exactly the last component; there is none for the empty path or a lone root |
| Paths.FileName | src/main.rs:144 | a name exists exactly when the last component is a plain name |
| Local.GetPathOfKey | src/local.rs:38-53 | a key `/zone/rel` maps to `base/rel`, whatever the base |
| Local.RelativeKeepsPrefix | src/local.rs:45-47 | a relative remote path never starts with the `/zone/` prefix, so nothing is stripped |
| Local.PushRelative | src/local.rs:50 | pushing a relative path appends the components of its pieces; the empty path adds nothing and a leading `.` disappears |
| Local.GetPathRelative | src/local.rs:45-50 | any relative remote path, the empty one and one starting with `.` included, is appended whole to the base |
| Local.GetPathOfRoot | src/local.rs:45-50 | the empty remote path and `/zone` both map to the base itself |
| Local.TrailingSeparator | src/local.rs:39 | a `/` at the end of the base changes nothing |
| Local.BasicExample | src/local.rs:61-69 | `/myzone/path/to/file` under `/local/base` gives `/local/base/path/to/file` |
| Local.TrailingSeparatorExample | src/local.rs:72-80 | the same with the base `/local/base/` |
| Local.NoZonePrefixExample | src/local.rs:83-91 | `path/to/file` is appended whole |
| Local.RootExamples | src/local.rs:94-113 | the empty remote path and `/myzone` give the base |
| Local.SpecialCharactersExample | src/local.rs:116-128 | spaces and punctuation are kept verbatim |
| Local.ParentPieceExample | src/local.rs:131-141 | `..` pieces are kept |
| Local.RelativeBaseExample | src/local.rs:156-165 | a relative base stays relative |
| Local.UnicodeExample | src/local.rs:168-176 | non-ASCII pieces are kept verbatim |
| Local.RepeatedZoneExample | src/local.rs:179-187 | only the first `/myzone/` is stripped |
| Local.CurrentPieceExample | src/local.rs:190-198 | `.` pieces vanish |
| FileMaps.IsExcluded | src/main.rs:308-312 | a name is excluded exactly when some pattern matches it, with the matcher called as (name, pattern) |
| FileMaps.NothingExcludedWithoutPatterns | src/main.rs:308-312 | with no pattern nothing is excluded |
| FileMaps.ExcludedMonotone | src/main.rs:308-312 | adding a pattern excludes exactly what it matches in addition |
| FileMaps.RemoteFileMap | src/main.rs:256-273 | every entry is a listed record, a file, not excluded, under the key path followed by name; every such record has its key in the map |
| FileMaps.RemoteFileMapLastWins | src/main.rs:264-271 | of several kept records with one key, the last one listed is in the map |
| FileMaps.LocalFileMap | src/main.rs:276-305 | every entry is a walked file, not excluded, under the key `/zone/` followed by its relative path; every such file has its key in the map |
| FileMaps.LocalKeyShape | src/main.rs:293-302 | every local key starts with `/zone/` and ends with its file's relative path |
| RemoteWalk.GetAllObjects | src/storage.rs:91-105 | the worklist loop returns exactly `Traverse` from the one-path stack, and the paths it asks to be listed are exactly `Visits`: in order, up to and including a failing one |
| RemoteWalk.PushSubPaths | src/storage.rs:97-101 | the loop over one listing pushes the sub-path of every directory record, in order |
| RemoteWalk.TraverseConcat | src/storage.rs:95-104 | a successful walk returns every listing's records, files and directories alike, in the order the paths were popped, and every listing made succeeded |
| RemoteWalk.VisitsCount | src/storage.rs:95-101 | a successful walk lists each stacked path once and, for each directory record returned, its sub-path once, and nothing else |
| RemoteWalk.ListingCount | src/storage.rs:93-104 | the walk from one path lists that path first and makes one listing more than the directory records it returns |
| RemoteWalk.TraverseError | src/storage.rs:96 | a failed walk fails with the error of its last listing, every earlier listing succeeded, and no records are returned |
| RemoteWalk.PopDecreases | src/storage.rs:95-101 | popping a path and pushing its sub-directories lowers the work left, so the loop ends on an acyclic listing |
| Effects.RemoteStatus | src/storage.rs:74-87 | with no injected fault, a request succeeds exactly when the object it needs is there; a dropped request is a transport error |
| Effects.LocalStatus | src/main.rs:158 | a filesystem call succeeds exactly when it is allowed and no fault is injected; otherwise it is an I/O error |
| Effects.RunAppend | src/main.rs:142-178 | running two plans in sequence is running the first and, only if it succeeded, the second from where it stopped |
| Effects.ExecFirstFailure | src/main.rs:158-159 | a failed run failed in exactly one action: every earlier action completed and stays applied, no later action ran, and exactly the completed actions were reported (the same `?` propagation appears at src/main.rs:171, 213, 219, 224 and 239) |
| Effects.ExecSuccessReports | src/main.rs:160 | a successful live run reports one "updated" or "deleted" line per action, in order |
| Effects.DryRunAnnouncesLiveRun | src/main.rs:156-163 | a dry run succeeds, issues no call, changes neither side, and announces exactly the actions a successful live run reports (the same dry-run branch appears at src/main.rs:170-175, 210-232 and 238-243) |
| Effects.ExecFrame | src/main.rs:156-178 | uploads and remote deletes leave the local side unchanged; downloads and removals leave the zone unchanged |
| Effects.PerformDownload | src/main.rs:211-224 | a download that succeeds writes the fetched body to its target and nothing else among the files, makes a missing non-empty parent so that it is there, and leaves the zone alone |
| Effects.ExecDownloadLands | src/main.rs:197-224 | in a successful run of downloads, a download whose target no later one writes leaves the target holding what it fetched from the zone at the start, under a parent that is there |
| Effects.UploadsShareDestination | src/main.rs:159 | when every upload names one destination, a successful run leaves that object holding the last file read and nothing else changed in the zone |
| Effects.World.Read | src/main.rs:158 | `std::fs::read`: the world changes as the read step says and the content or an I/O error comes back |
| Effects.World.Put | src/storage.rs:108-126 | `put_object`: the call is recorded, and the object is stored only on success |
| Effects.World.Get | src/storage.rs:129-143 | `get_object`: the call is recorded, and the object's content or the classified error comes back |
| Effects.World.Delete | src/storage.rs:146-160 | `delete_object`: the call is recorded, and the object is removed only on success |
| Effects.World.MakeDirs | src/main.rs:219 | `create_dir_all`: the directory and all its ancestors exist afterwards unless a file is in the way |
| Effects.World.Write | src/main.rs:224 | `std::fs::write`: the file holds the data afterwards unless a directory is in the way |
| Effects.World.Remove | src/main.rs:239 | `std::fs::remove_file`: the file is gone afterwards; a missing file is an I/O error |
| Effects.World.Exists | src/main.rs:218 | `Path::exists`: a directory or a file is there |
| Plans.PlanKeys | src/main.rs:142-178 | a plan acts on exactly the visited keys its rule picks, each once when the order repeats none |
| Plans.PlanAppend | src/main.rs:142-178 | visiting one key list and then another plans the actions of the first and then those of the second |
| Plans.PushUploads | src/main.rs:142-155 | push uploads exactly the local keys the zone lacks, holds an older copy of, or holds with a different length, each once; the exclusion test in the loop never fires |
| Plans.PushTargets | src/main.rs:156-159 | every upload reads its own file and writes the one stripped destination, never the file's key |
| Plans.PushDeletes | src/main.rs:167-178 | with `delete`, push deletes exactly the remote keys the local map lacks, each once |
| Plans.PullDownloads | src/main.rs:197-205 | pull downloads exactly the remote keys with no local copy, or whose local copy is newer or of another length, each once |
| Plans.PullTargets | src/main.rs:207-224 | every download fetches the object's path, a separator and its name, and writes the key's place below the local base |
| Plans.PullRemovals | src/main.rs:235-246 | with `delete`, pull removes exactly the local keys the remote map lacks, each once, naming the file by the key itself |
| Plans.NoDeleteWithoutFlag | src/main.rs:167 | without `delete`, push only uploads and pull only downloads (the same flag test is at src/main.rs:235) |
| Plans.PlansStayOnTheirSide | src/main.rs:156-178 | a push plan acts only on the zone and a pull plan only on the local side |
| Plans.InSyncNothingToDo | src/main.rs:149-155 | when both maps have the same keys and every local copy is up to date, neither direction acts |
| Plans.PullSkipTestNotMirrored | src/main.rs:199-203 | pull skips a remote object newer than its local copy of equal length, and fetches one that is older |
| Plans.DownloadUrlIsNotKey | src/main.rs:212 | the download request has one character more than the object's key, so it never names the key |
| Plans.DownloadUrlExample | src/main.rs:212 | object `a.txt` in `/myzone/dir/` has key `/myzone/dir/a.txt` but is requested as `/myzone/dir//a.txt` |
| Plans.RemovalPathExample | src/main.rs:239 | pull removes the file the key names, not the file the key was downloaded to |
| Plans.PullWritesTargets | src/main.rs:207-224 | after a successful live pull without `delete`, each download not overwritten by a later one has written the object at path, separator and name to the key's place under the base, with a non-empty parent present, and the zone is unchanged |
| Plans.PushOverwritesOneObject | src/main.rs:156-160 | a successful live push without `delete` that uploads anything changes one object, the stripped destination, which ends up holding the last file uploaded; the local side is unchanged |
| Plans.OutcomeFrames | src/main.rs:127-248 | push never changes the local side and pull never changes the zone, however the run ends; a dry run issues no call and changes nothing |
| Engine.Carry | src/main.rs:156-163 | one acting loop turn: report the action in a dry run; otherwise issue its calls in order, stop at the first failure, and report the action last (the same turn appears at src/main.rs:170-175, 210-232 and 238-243) |
| Engine.PushKey | src/main.rs:142-164 | the body of the push loop acts on a key exactly as the upload rule decides |
| Engine.UploadChanged | src/main.rs:142-164 | the push loop visits every local key once, in some order, and leaves the world as running the upload plan for that order does |
| Engine.DeleteKey | src/main.rs:168-177 | the body of either delete loop acts on a key exactly as the delete rule decides |
| Engine.DeleteMissing | src/main.rs:167-178 | either delete loop visits every key once, in some order, and leaves the world as running the delete plan for that order does (the pull loop is at src/main.rs:235-246) |
| Engine.PullKey | src/main.rs:197-233 | the body of the pull loop acts on a key exactly as the download rule decides |
| Engine.DownloadChanged | src/main.rs:197-233 | the pull loop visits every remote key once, in some order, and leaves the world as running the download plan for that order does |
| Engine.SyncToRemote | src/main.rs:127-180 | the whole push leaves the world and result of `PushOutcome`: a listing or walk error before any action, else the uploads and then, with `delete`, the deletes, each loop in the order it returns |
| Engine.SyncToLocal | src/main.rs:182-248 | the whole pull leaves the world and result of `PullOutcome`, in the same terms |
| Cli.IsZone | src/main.rs:251-253 | an argument is a zone exactly when it starts with `zone://` |
| Cli.IsZoneStrips | src/main.rs:251-253 | a zone argument is the scheme followed by its stripped path; any other argument is its own stripped path |
| Cli.ChooseCases | src/main.rs:59-97 | push exactly when only the destination is a zone, pull exactly when only the source is, and neither when both or none are |
| Cli.ChooseSwapped | src/main.rs:59-97 | swapping source and destination swaps push and pull |
| Cli.DispatchSyncs | src/main.rs:52-103 | a push starts exactly with an API key, a known region, a local source that exists and a zone destination, and a pull in the mirrored case; a push takes its local side from the source and a pull from the destination |
| Cli.ConfigWins | src/main.rs:110-122 | an API key or region present in the configuration replaces the argument; an exclude list there replaces the command-line list, with `.bunnysync` added |
| Cli.MergedIdempotent | src/main.rs:110-122 | applying the same configuration twice changes nothing more |
| Cli.ConfigFileExcluded | src/main.rs:116-122 | with an exclude list in the configuration, the configuration file itself is excluded |
| Cli.Args.ReadConfigFile | src/main.rs:107-125 | an unreadable file changes nothing and succeeds; an unparsable file is an error and changes nothing; a parsed file is applied field by field; the paths and flags never change |

## Left out

- HTTP transport is not modelled: the agent, the authentication header, the request and response plumbing (src/storage.rs:44-64), and the failure to build the agent. What remains is each request's outcome: a status classified by `Storage.Classify`, an injected failure, or no response at all.
- The JSON body of a listing and the `chrono` timestamps are not modelled: a listing is a function from path to records, and timestamps are whole numbers. The GUID, zone name and creation date of a record are dropped, because the synchronisation does not read them.
- The directory walk of `local::get_files` (src/local.rs:14-33) is filesystem I/O. Its result is a parameter, `walk`, which is either a list of records or an error. The model does not tie the walk's records to the local files of the world: a walked file may be missing from it, and its upload then fails when it is read.
- `canonicalize` in `get_path` (src/local.rs:52) depends on the live filesystem. The model always takes its fallback.
- The Windows-only example (src/local.rs:143-153) is left out: paths are Unix paths.
- Command-line parsing, the environment variables, the `.bunnysync` read and the TOML syntax are left out. `Cli.Args.ReadConfigFile` takes what reading and parsing gave.
- `Path::exists` in `main` is a parameter, `present`, of `Cli.Dispatch`.
- The text of the lines printed is not modelled: a line records the action it reports and whether it was done or only announced. `process::exit` and the exit statuses are not modelled either.
- The internals of the glob matcher are left out: the matcher is a parameter, called with the file name first and the pattern second.
- `unwrap` panics on file names that are not UTF-8 are left out: names are strings. A path without a last name gives the empty name.
- The concrete hash-map iteration order is left open: each loop returns the order it used.
- The listing and the zone's objects are separate parts of the state. The model does not tie what a listing returns to what the store holds, and a download request is answered from the object stored under exactly the path requested.
- `Effects.World.Write` does not require the parent directory to exist: only a directory at the target itself makes it fail.
- Uploads are stored under the path the request names. The model does not capture how the service treats a path that names a directory.

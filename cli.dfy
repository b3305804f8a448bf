/** The command line: which arguments name a storage zone, which way a run
    synchronises, and how the optional `.bunnysync` file in the working
    directory overrides the parsed arguments. Argument parsing, the
    environment and the TOML syntax are outside the model: the merge starts
    from parsed values. */
module Cli {
  import opened Common
  import opened Storage
  import opened FileMaps

  /** `is_zone`: the argument starts with `zone://`. */
  function IsZone(path: string): (r: bool)
    ensures r <==> |path| >= |ZoneScheme| && path[..|ZoneScheme|] == ZoneScheme
  {
    ZoneScheme <= path
  }

  /** A zone argument is the scheme followed by the stripped path; any other
      argument is its own stripped path. */
  lemma IsZoneStrips(path: string)
    ensures IsZone(path) <==> ZoneScheme + StripZonePrefix(path) == path
    ensures !IsZone(path) ==> StripZonePrefix(path) == path
  {
    if ZoneScheme + StripZonePrefix(path) == path {
      assert path[..|ZoneScheme|] == ZoneScheme;
    }
  }

  datatype Direction = Push | Pull | Neither

  /** The choice in `main`: push when only the destination is a zone, pull
      when only the source is. */
  function Choose(source: string, destination: string): (d: Direction)
  {
    if !IsZone(source) && IsZone(destination) then Push
    else if IsZone(source) && !IsZone(destination) then Pull
    else Neither
  }

  /** Exactly one side must be a zone; the zone side decides the way. */
  lemma ChooseCases(source: string, destination: string)
    ensures Choose(source, destination) == Neither <==> IsZone(source) == IsZone(destination)
    ensures Choose(source, destination) == Push <==> IsZone(destination) && !IsZone(source)
    ensures Choose(source, destination) == Pull <==> IsZone(source) && !IsZone(destination)
  {
  }

  /** Swapping the arguments swaps the way. */
  lemma ChooseSwapped(source: string, destination: string)
    ensures Choose(destination, source) ==
      match Choose(source, destination)
      case Push => Pull
      case Pull => Push
      case Neither => Neither
  {
  }

  /** What `main` does with the merged arguments. `present` answers whether
      a local path exists. */
  datatype Command =
    | AskForKey                                      // no API key: says so and stops
    | BadRegion                                      // the region has no host: the run panics
    | MissingSource                                  // push from a path that does not exist: says so and stops
    | MissingDestination                             // pull into a path that does not exist: says so and stops
    | SyncToRemote(baseUrl: string, local: string, zone: string)
    | SyncToLocal(baseUrl: string, local: string, zone: string)
    | InvalidPair                                    // no zone or two zones: exits with status 1

  function Dispatch(apiKey: Option<string>, region: string, source: string, destination: string,
                    present: string -> bool): (c: Command)
  {
    if apiKey.None? then AskForKey
    else match BaseUrl(region)
      case None => BadRegion
      case Some(baseUrl) =>
        match Choose(source, destination)
        case Push => if !present(source) then MissingSource else SyncToRemote(baseUrl, source, destination)
        case Pull => if !present(destination) then MissingDestination else SyncToLocal(baseUrl, destination, source)
        case Neither => InvalidPair
  }

  /** A synchronisation starts only with an API key, a known region and an
      existing local side; push takes the local directory from the source
      and the zone from the destination, pull the other way round. */
  lemma DispatchSyncs(apiKey: Option<string>, region: string, source: string, destination: string,
                      present: string -> bool)
    ensures var c := Dispatch(apiKey, region, source, destination, present);
      c.SyncToRemote? <==>
        apiKey.Some? && region in Regions && !IsZone(source) && IsZone(destination) && present(source)
    ensures var c := Dispatch(apiKey, region, source, destination, present);
      c.SyncToLocal? <==>
        apiKey.Some? && region in Regions && IsZone(source) && !IsZone(destination) && present(destination)
    ensures var c := Dispatch(apiKey, region, source, destination, present);
      (c.SyncToRemote? || c.SyncToLocal?) ==>
        Some(c.baseUrl) == BaseUrl(region)
        && (c.SyncToRemote? ==> c.local == source && c.zone == destination)
        && (c.SyncToLocal? ==> c.local == destination && c.zone == source)
  {
    ChooseCases(source, destination);
  }

  /** The settings a configuration file may override. */
  datatype Settings = Settings(apiKey: Option<string>, region: string, exclude: seq<string>)

  /** A parsed `.bunnysync` file: every entry is optional. */
  datatype Config = Config(apiKey: Option<string>, region: Option<string>, exclude: Option<seq<string>>)

  /** The file name the configuration is read from. */
  const ConfigName: string := ".bunnysync"

  /** The settings after a configuration is applied: an entry that is
      present replaces the setting; an exclude list also gets the
      configuration file's own name appended. */
  function Merged(s: Settings, c: Config): Settings
  {
    Settings(
      if c.apiKey.Some? then c.apiKey else s.apiKey,
      if c.region.Some? then c.region.value else s.region,
      if c.exclude.Some? then c.exclude.value + [ConfigName] else s.exclude)
  }

  /** Entries the configuration has win and the others keep their value;
      an exclude list in the configuration drops every pattern given on the
      command line that it does not repeat. */
  lemma ConfigWins(s: Settings, c: Config)
    ensures c.apiKey.Some? ==> Merged(s, c).apiKey == c.apiKey
    ensures c.apiKey.None? ==> Merged(s, c).apiKey == s.apiKey
    ensures Merged(s, c).region == if c.region.Some? then c.region.value else s.region
    ensures forall p :: p in Merged(s, c).exclude <==>
      if c.exclude.Some? then p in c.exclude.value || p == ConfigName else p in s.exclude
  {
  }

  /** Applying the same configuration twice changes nothing more. */
  lemma MergedIdempotent(s: Settings, c: Config)
    ensures Merged(Merged(s, c), c) == Merged(s, c)
  {
  }

  /** With an exclude list in the configuration, the configuration file
      itself is excluded by any matcher that matches a name with itself;
      without one, nothing adds it. */
  lemma ConfigFileExcluded(s: Settings, c: Config, glob: Matcher)
    requires glob(ConfigName, ConfigName)
    ensures c.exclude.Some? ==> IsExcluded(ConfigName, Merged(s, c).exclude, glob)
    ensures c.exclude.None? && s.exclude == [] ==> !IsExcluded(ConfigName, Merged(s, c).exclude, glob)
  {
    if c.exclude.Some? {
      var m := Merged(s, c).exclude;
      assert glob(ConfigName, m[|m| - 1]);
    }
  }

  /** The parsed arguments of one run. */
  class Args {
    var apiKey: Option<string>
    var region: string
    var source: string
    var destination: string
    var dryRun: bool
    var delete: bool
    var exclude: seq<string>

    function Overridable(): Settings
      reads this
    {
      Settings(apiKey, region, exclude)
    }

    constructor (apiKey: Option<string>, region: string, source: string, destination: string,
                 dryRun: bool, delete: bool, exclude: seq<string>)
      ensures Overridable() == Settings(apiKey, region, exclude)
      ensures this.source == source && this.destination == destination
      ensures this.dryRun == dryRun && this.delete == delete
    {
      this.apiKey, this.region, this.exclude := apiKey, region, exclude;
      this.source, this.destination := source, destination;
      this.dryRun, this.delete := dryRun, delete;
    }

    /** `read_config_file`, given what reading and parsing `.bunnysync`
        gave: `None` when the file could not be read (nothing changes),
        an error when it is not valid TOML (the error is returned and
        nothing changes), else the configuration, which is applied field
        by field. */
    method ReadConfigFile(file: Option<Result<Config>>) returns (r: Result<()>)
      modifies this
      ensures file.Some? && file.value.Err? <==> r.Err?
      ensures r.Err? ==> r.error == file.value.error
      ensures match file
        case Some(Ok(config)) => Overridable() == Merged(old(Overridable()), config)
        case _ => Overridable() == old(Overridable())
      ensures source == old(source) && destination == old(destination)
      ensures dryRun == old(dryRun) && delete == old(delete)
    {
      if file.None? {
        return Ok(());
      }
      if file.value.Err? {
        return Err(file.value.error);
      }
      var config := file.value.value;
      if config.apiKey.Some? {
        apiKey := config.apiKey;
      }
      if config.region.Some? {
        region := config.region.value;
      }
      if config.exclude.Some? {
        var list := config.exclude.value;
        list := list + [ConfigName];
        exclude := list;
      }
      r := Ok(());
    }
  }
}

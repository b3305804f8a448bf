/** The storage-service helpers: the region table, the `zone://` argument
    syntax, the zone name of a remote path and the classification of HTTP
    statuses shared by the four request functions. */
module Storage {
  import opened Common
  import opened Paths

  /** One record of a one-level listing. The service's GUID, zone name and
      creation date are not used by the synchronisation and are left out;
      timestamps are whole numbers. */
  datatype StorageObject = StorageObject(
    path: string,          // the pseudo-directory holding the entry, ending in `/`
    objectName: string,    // the leaf name
    length: nat,
    lastChanged: int,
    isDirectory: bool)

  /** The regions `base_url` knows. */
  const Regions: set<string> :=
    {"uk", "us_ny", "ny", "us_la", "la", "sg", "se", "br", "sa", "au", "au_syd", "syd", "", "de"}

  /** The values the command line accepts for `--region`. */
  const CliRegions: seq<string> :=
    ["uk", "de", "us_ny", "ny", "us_la", "la", "sg", "se", "br", "sa", "au", "au_syd", "syd"]

  /** The API host of a region, or `None` for an unknown region. */
  function BaseUrl(region: string): (r: Option<string>)
    ensures r.Some? <==> region in Regions
  {
    match region
    case "uk" => Some("https://uk.storage.bunnycdn.com")
    case "us_ny" => Some("https://ny.storage.bunnycdn.com")
    case "ny" => Some("https://ny.storage.bunnycdn.com")
    case "us_la" => Some("https://la.storage.bunnycdn.com")
    case "la" => Some("https://la.storage.bunnycdn.com")
    case "sg" => Some("https://sg.storage.bunnycdn.com")
    case "se" => Some("https://se.storage.bunnycdn.com")
    case "br" => Some("https://br.storage.bunnycdn.com")
    case "sa" => Some("https://ja.storage.bunnycdn.com")
    case "au" => Some("https://syd.storage.bunnycdn.com")
    case "au_syd" => Some("https://syd.storage.bunnycdn.com")
    case "syd" => Some("https://syd.storage.bunnycdn.com")
    case "" => Some("https://storage.bunnycdn.com")
    case "de" => Some("https://storage.bunnycdn.com")
    case _ => None
  }

  /** Aliases share a host. */
  lemma RegionAliases()
    ensures BaseUrl("us_ny") == BaseUrl("ny") == Some("https://ny.storage.bunnycdn.com")
    ensures BaseUrl("us_la") == BaseUrl("la") == Some("https://la.storage.bunnycdn.com")
    ensures BaseUrl("au") == BaseUrl("au_syd") == BaseUrl("syd") == Some("https://syd.storage.bunnycdn.com")
  {
  }

  /** The empty region and `de` use the default host; `sa` is served from Japan. */
  lemma RegionDefaults()
    ensures BaseUrl("") == BaseUrl("de") == Some("https://storage.bunnycdn.com")
    ensures BaseUrl("sa") == Some("https://ja.storage.bunnycdn.com")
  {
  }

  /** The regions with a host of their own. */
  lemma RegionHosts()
    ensures BaseUrl("uk") == Some("https://uk.storage.bunnycdn.com")
    ensures BaseUrl("sg") == Some("https://sg.storage.bunnycdn.com")
    ensures BaseUrl("se") == Some("https://se.storage.bunnycdn.com")
    ensures BaseUrl("br") == Some("https://br.storage.bunnycdn.com")
  {
  }

  /** A region outside the table has no host. */
  lemma RegionUnknown()
    ensures BaseUrl("invalid") == None
  {
  }

  /** Every region the command line accepts has a host. */
  lemma CliRegionsKnown()
    ensures forall i :: 0 <= i < |CliRegions| ==> BaseUrl(CliRegions[i]).Some?
  {
  }

  /** The scheme that marks a command-line argument as a storage zone. */
  const ZoneScheme: string := "zone://"

  /** `strip_zone_prefix`: remove one leading `zone://`, if present. */
  function StripZonePrefix(path: string): (r: string)
    ensures ZoneScheme <= path ==> ZoneScheme + r == path
    ensures !(ZoneScheme <= path) ==> r == path
  {
    if ZoneScheme <= path then path[|ZoneScheme|..] else path
  }

  lemma StripZonePrefixExamples()
    ensures StripZonePrefix("zone://test/path") == "test/path"
    ensures StripZonePrefix("test/path") == "test/path"
    ensures StripZonePrefix("zone://zone://x") == "zone://x"
  {
    assert "zone://test/path" == ZoneScheme + "test/path";
    assert "zone://zone://x" == ZoneScheme + "zone://x";
    assert "test/path"[0] != ZoneScheme[0];
  }

  /** Where the first non-empty piece is; `|pieces|` when there is none. */
  function FirstNonEmpty(pieces: seq<string>): (i: nat)
    ensures i <= |pieces|
    ensures forall j :: 0 <= j < i ==> pieces[j] == ""
    ensures i < |pieces| ==> pieces[i] != ""
  {
    if pieces == [] then 0
    else if pieces[0] != "" then 0
    else
      var i := FirstNonEmpty(pieces[1..]);
      assert forall j :: 0 < j <= i ==> pieces[j] == pieces[1..][j - 1];
      1 + i
  }

  predicate AllEmpty(pieces: seq<string>) {
    forall i :: 0 <= i < |pieces| ==> pieces[i] == ""
  }

  predicate AllSeparators(s: string) {
    forall i :: 0 <= i < |s| ==> s[i] == '/'
  }

  /** Every piece of `s` is empty exactly when `s` consists of separators. */
  lemma {:induction false} SplitAllEmpty(s: string)
    ensures AllEmpty(Split(s)) <==> AllSeparators(s)
  {
    if s != [] {
      SplitAllEmpty(s[1..]);
      SplitStep(s);
      var rest := Split(s[1..]);
      if s[0] == '/' {
        assert Split(s) == [""] + rest;
        assert AllEmpty(Split(s)) <==> AllEmpty(rest) by {
          if AllEmpty(rest) {
            forall i | 0 <= i < |Split(s)| ensures Split(s)[i] == "" {
              if i > 0 { assert Split(s)[i] == rest[i - 1]; }
            }
          }
          if AllEmpty(Split(s)) {
            forall i | 0 <= i < |rest| ensures rest[i] == "" {
              assert rest[i] == Split(s)[i + 1];
            }
          }
        }
        assert AllSeparators(s) <==> AllSeparators(s[1..]) by {
          if AllSeparators(s[1..]) {
            forall i | 0 <= i < |s| ensures s[i] == '/' {
              if i > 0 { assert s[i] == s[1..][i - 1]; }
            }
          }
        }
      } else {
        assert Split(s)[0] == [s[0]] + rest[0];
        assert !AllEmpty(Split(s));
        assert !AllSeparators(s);
      }
    }
  }

  /** No piece contains a separator. */
  lemma {:induction false} SplitPiecesPlain(s: string)
    ensures forall i :: 0 <= i < |Split(s)| ==> '/' !in Split(s)[i]
  {
    if s != [] {
      SplitPiecesPlain(s[1..]);
      SplitStep(s);
      var rest := Split(s[1..]);
      if s[0] == '/' {
        assert forall i :: 0 < i < |Split(s)| ==> Split(s)[i] == rest[i - 1];
      } else {
        assert forall i :: 1 <= i < |Split(s)| ==> Split(s)[i] == rest[i];
        assert Split(s)[0] == [s[0]] + rest[0];
      }
    }
  }

  /** `zone_name`: the first non-empty `/`-separated piece of a remote path,
      or the empty string when the path is made of separators only. */
  function ZoneName(remote: string): (r: string)
    ensures r == "" <==> AllSeparators(remote)
    ensures '/' !in r
    ensures r != "" ==> exists i :: 0 <= i < |Split(remote)| && Split(remote)[i] == r
                          && forall j :: 0 <= j < i ==> Split(remote)[j] == ""
  {
    SplitAllEmpty(remote);
    SplitPiecesPlain(remote);
    var pieces := Split(remote);
    var i := FirstNonEmpty(pieces);
    if i < |pieces| then pieces[i] else ""
  }

  /** The zone name is the first non-empty piece. */
  lemma ZoneNameIs(remote: string, k: nat)
    requires k < |Split(remote)| && Split(remote)[k] != ""
    requires forall j :: 0 <= j < k ==> Split(remote)[j] == ""
    ensures ZoneName(remote) == Split(remote)[k]
  {
    var i := FirstNonEmpty(Split(remote));
    assert i == k;
  }

  /** A path that starts with a plain piece has that piece as zone name. */
  lemma ZoneNameFirstPiece(zone: string, rest: string)
    requires zone != "" && '/' !in zone
    ensures ZoneName(zone + "/" + rest) == zone
  {
    SplitAround(zone, rest);
    SplitNoSeparator(zone);
    ZoneNameIs(zone + "/" + rest, 0);
  }

  /** A leading separator only adds an empty piece in front. */
  lemma ZoneNameAfterSeparator(zone: string, rest: string)
    requires zone != "" && '/' !in zone
    ensures ZoneName("/" + (zone + "/" + rest)) == zone
  {
    var tail := zone + "/" + rest;
    assert "/" + tail == "" + "/" + tail;
    SplitAround("", tail);
    SplitAround(zone, rest);
    SplitNoSeparator(zone);
    ZoneNameIs("/" + tail, 1);
  }

  lemma ZoneNameTrailingSeparator()
    ensures ZoneName("test/") == "test"
  {
    ZoneNameFirstPiece("test", "");
    assert "test" + "/" + "" == "test/";
  }

  lemma ZoneNameNested()
    ensures ZoneName("test/foo/bar") == "test"
  {
    ZoneNameFirstPiece("test", "foo/bar");
    assert "test" + "/" + "foo/bar" == "test/foo/bar";
  }

  lemma ZoneNameLeadingSeparator()
    ensures ZoneName("/test/foo/bar/") == "test"
  {
    ZoneNameAfterSeparator("test", "foo/bar/");
    assert "/" + ("test" + "/" + "foo/bar/") == "/test/foo/bar/";
  }

  lemma ZoneNameEmpty()
    ensures ZoneName("") == ""
  {
  }

  /** How every request function turns the response status into a result:
      401, 404 and 403 are named failures, any other 2xx status is success
      and everything else is a generic failure carrying the status. */
  function Classify(status: int, path: string): (r: Result<()>)
    ensures r.Ok? <==> 200 <= status <= 299
    ensures r == Err(Unauthorized) <==> status == 401
    ensures r == Err(NotFound(path)) <==> status == 404
    ensures r == Err(Forbidden(path)) <==> status == 403
    ensures r.Err? && status !in {401, 403, 404} ==> r == Err(HttpStatus(status))
  {
    if status == 401 then Err(Unauthorized)
    else if status == 404 then Err(NotFound(path))
    else if status == 403 then Err(Forbidden(path))
    else if 200 <= status <= 299 then Ok(())
    else Err(HttpStatus(status))
  }
}

/** The local side: the record the directory walk produces for each entry,
    and `get_path`, which maps a remote key to a path under the local base. */
module Local {
  import opened Common
  import opened Paths

  /** One entry of the local directory walk. Timestamps are whole numbers. */
  datatype LocalFile = LocalFile(
    relativePath: string,  // the entry's path below the walked directory
    path: Path,            // the entry's full path
    isDirectory: bool,
    lastChanged: int,
    length: nat)

  /** `get_path`: strip one leading `/zone/` from the remote path (component
      wise), push what is left onto the local base. The target never exists
      when the path is computed, so `canonicalize` always falls back to the
      pushed path. */
  function GetPath(localBase: string, zoneName: string, remotePath: string): Path
  {
    var remote := Parse(remotePath);
    var rest := match StripPrefix(remote, Parse("/" + zoneName + "/"))
      case Some(r) => r
      case None => remote;
    Push(Parse(localBase), rest)
  }

  lemma ZoneSplit(zoneName: string, rel: string)
    requires '/' !in zoneName
    ensures Split("/" + zoneName + "/" + rel) == ["", zoneName] + Split(rel)
  {
    assert "/" + zoneName + "/" + rel == "" + "/" + (zoneName + "/" + rel);
    SplitAround("", zoneName + "/" + rel);
    SplitAround(zoneName, rel);
    SplitNoSeparator(zoneName);
  }

  lemma NormalizeName(name: string, rest: seq<string>)
    requires IsName(name)
    ensures Normalize([name] + rest) == [Normal(name)] + Normalize(rest)
  {
    assert ([name] + rest)[1..] == rest;
  }

  lemma ParseAbsolute(s: string)
    requires s != "" && s[0] == '/'
    ensures Parse(s) == [RootDir] + Normalize(Split(s)[1..])
  {
    ParseShape(s);
  }

  lemma ZonePieces(zoneName: string, rel: string)
    requires '/' !in zoneName
    ensures var s := "/" + zoneName + "/" + rel;
      s != "" && s[0] == '/' && Split(s)[1..] == [zoneName] + Split(rel)
  {
    ZoneSplit(zoneName, rel);
  }

  /** The components of `/zone/rel`, for a zone that is a plain name. */
  lemma ZonePrefix(zoneName: string, rel: string)
    requires '/' !in zoneName && IsName(zoneName)
    ensures Parse("/" + zoneName + "/" + rel) == [RootDir, Normal(zoneName)] + Normalize(Split(rel))
  {
    ZonePieces(zoneName, rel);
    ParseAbsolute("/" + zoneName + "/" + rel);
    NormalizeName(zoneName, Split(rel));
  }

  /** The components of `/zone/`. */
  lemma ZoneRoot(zoneName: string)
    requires '/' !in zoneName && IsName(zoneName)
    ensures Parse("/" + zoneName + "/") == [RootDir, Normal(zoneName)]
  {
    assert "/" + zoneName + "/" == "/" + zoneName + "/" + "";
    ZonePrefix(zoneName, "");
  }

  /** A remote key of the zone lands under the local base: the `/zone/`
      prefix goes, the rest of the key is appended to the base. This is
      how pulled files find their place, and why `/zone/rel` maps to
      `base/rel` whatever the base. */
  lemma GetPathOfKey(localBase: string, zoneName: string, rel: string)
    requires localBase != "" && '/' !in zoneName && IsName(zoneName)
    ensures GetPath(localBase, zoneName, "/" + zoneName + "/" + rel) == Parse(localBase + "/" + rel)
  {
    ZonePrefix(zoneName, rel);
    ZoneRoot(zoneName);
    var rest := Normalize(Split(rel));
    assert StripPrefix([RootDir, Normal(zoneName)] + rest, [RootDir, Normal(zoneName)]) == Some(rest) by {
      assert ([RootDir, Normal(zoneName)] + rest)[..2] == [RootDir, Normal(zoneName)];
    }
    ParseNonEmpty(localBase);
    ParseUnder(localBase, rel);
  }

  /** A relative path never starts with the zone prefix. */
  lemma RelativeKeepsPrefix(zoneName: string, remotePath: string)
    requires !(|remotePath| > 0 && remotePath[0] == '/')
    ensures StripPrefix(Parse(remotePath), Parse("/" + zoneName + "/")) == None
  {
    assert Parse("/" + zoneName + "/")[0] == RootDir;
  }

  /** Pushing a relative path appends the components of its pieces. */
  lemma PushRelative(base: Path, remotePath: string)
    requires base != [] && !(|remotePath| > 0 && remotePath[0] == '/')
    ensures Push(base, Parse(remotePath)) == base + Normalize(Split(remotePath))
  {
    var pieces := Split(remotePath);
    var p := Parse(remotePath);
    assert !IsAbsolute(p);
    if remotePath == "" {
      assert pieces == [""];
      assert p == [];
      assert Normalize(pieces) == [];
      assert Push(base, p) == base + Normalize(pieces);
    } else {
      ParseShape(remotePath);
      var rest := Normalize(pieces[1..]);
      assert Normalize(pieces) == PieceComponents(pieces[0]) + rest;
      if pieces[0] == "." {
        assert p == [CurDir] + rest;
        assert p[1..] == rest;
        assert PieceComponents(pieces[0]) == [];
        assert Normalize(pieces) == rest;
        assert Push(base, p) == base + Normalize(pieces);
      } else {
        assert p == Normalize(pieces);
        assert Push(base, p) == base + p;
      }
    }
  }

  /** A remote path that is relative is appended whole: a leading `.`
      piece disappears on either side, and the empty path adds nothing. */
  lemma GetPathRelative(localBase: string, zoneName: string, remotePath: string)
    requires localBase != "" && !(|remotePath| > 0 && remotePath[0] == '/')
    ensures GetPath(localBase, zoneName, remotePath) == Parse(localBase + "/" + remotePath)
  {
    RelativeKeepsPrefix(zoneName, remotePath);
    ParseNonEmpty(localBase);
    PushRelative(Parse(localBase), remotePath);
    ParseUnder(localBase, remotePath);
  }

  /** An empty remote path, or the zone root itself, gives the base. */
  lemma GetPathOfRoot(localBase: string, zoneName: string)
    requires localBase != "" && '/' !in zoneName && IsName(zoneName)
    ensures GetPath(localBase, zoneName, "") == Parse(localBase)
    ensures GetPath(localBase, zoneName, "/" + zoneName) == Parse(localBase)
  {
    ParseNonEmpty(localBase);
    assert Split("") == [""];
    SplitNoSeparator(zoneName);
    assert "/" + zoneName == "" + "/" + zoneName;
    SplitAround("", zoneName);
    assert Parse("/" + zoneName) == [RootDir] + Normalize([zoneName]);
    ZoneRoot(zoneName);
  }

  /** A separator at the end of the base does not change the result. */
  lemma TrailingSeparator(localBase: string)
    requires localBase != ""
    ensures Parse(localBase + "/") == Parse(localBase)
  {
    assert localBase + "/" == localBase + "/" + "";
    ParseUnder(localBase, "");
    assert Split("") == [""];
  }

  /** local.rs, basic combination. */
  lemma BasicExample()
    ensures GetPath("/local/base", "myzone", "/myzone/path/to/file") == Parse("/local/base/path/to/file")
  {
    assert "/myzone/path/to/file" == "/" + "myzone" + "/" + "path/to/file";
    assert "/local/base/path/to/file" == "/local/base" + "/" + "path/to/file";
    GetPathOfKey("/local/base", "myzone", "path/to/file");
  }

  /** local.rs, a base with a trailing separator. */
  lemma TrailingSeparatorExample()
    ensures GetPath("/local/base/", "myzone", "/myzone/path/to/file") == Parse("/local/base/path/to/file")
  {
    assert "/local/base/" == "/local/base" + "/";
    TrailingSeparator("/local/base");
    BasicExample();
  }

  /** local.rs, a relative base stays relative. */
  lemma RelativeBaseExample()
    ensures GetPath("local/base", "myzone", "/myzone/path/to/file") == Parse("local/base/path/to/file")
  {
    assert "/myzone/path/to/file" == "/" + "myzone" + "/" + "path/to/file";
    assert "local/base/path/to/file" == "local/base" + "/" + "path/to/file";
    GetPathOfKey("local/base", "myzone", "path/to/file");
  }

  /** local.rs, only the first zone prefix is removed. */
  lemma RepeatedZoneExample()
    ensures GetPath("/local/base", "myzone", "/myzone/myzone/path/to/file") == Parse("/local/base/myzone/path/to/file")
  {
    assert "/myzone/myzone/path/to/file" == "/" + "myzone" + "/" + "myzone/path/to/file";
    assert "/local/base/myzone/path/to/file" == "/local/base" + "/" + "myzone/path/to/file";
    GetPathOfKey("/local/base", "myzone", "myzone/path/to/file");
  }

  /** local.rs, `..` pieces are kept. */
  lemma ParentPieceExample()
    ensures GetPath("/local/base", "myzone", "/myzone/path/../to/file") == Parse("/local/base/path/../to/file")
  {
    assert "/myzone/path/../to/file" == "/" + "myzone" + "/" + "path/../to/file";
    assert "/local/base/path/../to/file" == "/local/base" + "/" + "path/../to/file";
    GetPathOfKey("/local/base", "myzone", "path/../to/file");
  }

  lemma SpecialCharactersKey()
    ensures "/myzone/path/with spaces/and$pecial@chars" == "/" + "myzone" + "/" + "path/with spaces/and$pecial@chars"
  {
  }

  lemma SpecialCharactersTarget()
    ensures "/local/base/path/with spaces/and$pecial@chars" == "/local/base" + "/" + "path/with spaces/and$pecial@chars"
  {
  }

  /** local.rs, spaces and punctuation are kept verbatim. */
  lemma SpecialCharactersExample()
    ensures GetPath("/local/base", "myzone", "/myzone/path/with spaces/and$pecial@chars")
         == Parse("/local/base/path/with spaces/and$pecial@chars")
  {
    SpecialCharactersKey();
    SpecialCharactersTarget();
    GetPathOfKey("/local/base", "myzone", "path/with spaces/and$pecial@chars");
  }

  /** local.rs, non-ASCII names are kept verbatim. */
  lemma UnicodeExample()
    ensures GetPath("/local/基礎", "myzone", "/myzone/パス/ファイル") == Parse("/local/基礎/パス/ファイル")
  {
    assert "/myzone/パス/ファイル" == "/" + "myzone" + "/" + "パス/ファイル";
    assert "/local/基礎/パス/ファイル" == "/local/基礎" + "/" + "パス/ファイル";
    GetPathOfKey("/local/基礎", "myzone", "パス/ファイル");
  }

  lemma PathToFilePieces()
    ensures Split("path/to/file") == ["path", "to", "file"]
  {
    assert "path/to/file" == Join(["path", "to", "file"]);
    SplitJoin(["path", "to", "file"]);
  }

  lemma PathToFileComponents()
    ensures Normalize(["path", "to", "file"]) == [Normal("path"), Normal("to"), Normal("file")]
  {
  }

  lemma DottedPieces()
    ensures Split("./path/./to/./file") == [".", "path", ".", "to", ".", "file"]
  {
    assert "./path/./to/./file" == Join([".", "path", ".", "to", ".", "file"]);
    SplitJoin([".", "path", ".", "to", ".", "file"]);
  }

  lemma DottedComponents()
    ensures Normalize([".", "path", ".", "to", ".", "file"]) == [Normal("path"), Normal("to"), Normal("file")]
  {
  }

  lemma RelativeUnderBase()
    ensures GetPath("/local/base", "myzone", "path/to/file")
         == Parse("/local/base") + [Normal("path"), Normal("to"), Normal("file")]
  {
    PathToFilePieces();
    GetPathRelative("/local/base", "myzone", "path/to/file");
    ParseUnder("/local/base", "path/to/file");
    PathToFileComponents();
  }

  /** local.rs, a remote path without the zone prefix is appended whole. */
  lemma NoZonePrefixExample()
    ensures GetPath("/local/base", "myzone", "path/to/file") == Parse("/local/base/path/to/file")
  {
    RelativeUnderBase();
    PlainUnderBase();
  }

  /** local.rs, an empty remote path and the zone root give the base. */
  lemma RootExamples()
    ensures GetPath("/local/base", "myzone", "") == Parse("/local/base")
    ensures GetPath("/local/base", "myzone", "/myzone") == Parse("/local/base")
  {
    assert "/myzone" == "/" + "myzone";
    GetPathOfRoot("/local/base", "myzone");
  }

  lemma DottedUnderBase()
    ensures GetPath("/local/base", "myzone", "/myzone/./path/./to/./file")
         == Parse("/local/base") + [Normal("path"), Normal("to"), Normal("file")]
  {
    assert "/myzone/./path/./to/./file" == "/" + "myzone" + "/" + "./path/./to/./file";
    GetPathOfKey("/local/base", "myzone", "./path/./to/./file");
    ParseUnder("/local/base", "./path/./to/./file");
    DottedPieces();
    DottedComponents();
  }

  lemma PlainUnderBase()
    ensures Parse("/local/base/path/to/file") == Parse("/local/base") + [Normal("path"), Normal("to"), Normal("file")]
  {
    assert "/local/base/path/to/file" == "/local/base" + "/" + "path/to/file";
    ParseUnder("/local/base", "path/to/file");
    PathToFilePieces();
    PathToFileComponents();
  }

  /** local.rs, `.` pieces vanish. */
  lemma CurrentPieceExample()
    ensures GetPath("/local/base", "myzone", "/myzone/./path/./to/./file") == Parse("/local/base/path/to/file")
  {
    DottedUnderBase();
    PlainUnderBase();
  }
}

/** The part of Rust's `std::path` (Unix flavour) that the path mapper relies
    on. A path is compared component by component, so a path is modelled as
    its component sequence: repeated separators and non-leading `.` pieces
    disappear when a string is parsed, `..` stays, and a leading `/` is the
    root component. */
module Paths {
  import opened Common

  datatype Component = RootDir | CurDir | ParentDir | Normal(name: string)

  type Path = seq<Component>

  /** The text between `/` separators, as `str::split('/')` yields it:
      always at least one piece, possibly empty ones. */
  function Split(s: string): (pieces: seq<string>)
    ensures |pieces| >= 1
  {
    if s == [] then [""]
    else
      var rest := Split(s[1..]);
      if s[0] == '/' then [""] + rest
      else [[s[0]] + rest[0]] + rest[1..]
  }

  /** Glues pieces back together with one `/` between neighbours. */
  function Join(pieces: seq<string>): string
    requires |pieces| >= 1
  {
    if |pieces| == 1 then pieces[0] else pieces[0] + "/" + Join(pieces[1..])
  }

  /** Splitting loses nothing: joining the pieces gives the string back. */
  lemma {:induction false} JoinSplit(s: string)
    ensures Join(Split(s)) == s
  {
    if s != [] {
      JoinSplit(s[1..]);
      var rest := Split(s[1..]);
      if s[0] == '/' {
        assert Split(s) == [""] + rest;
        assert Join(Split(s)) == "" + "/" + Join(rest);
        assert s == [s[0]] + s[1..];
      } else if |rest| == 1 {
        assert s == [s[0]] + s[1..];
      } else {
        assert Split(s)[1..] == rest[1..];
        assert Join(rest) == rest[0] + "/" + Join(rest[1..]);
        assert s == [s[0]] + s[1..];
      }
    }
  }

  predicate Plain(pieces: seq<string>)
  {
    forall i :: 0 <= i < |pieces| ==> '/' !in pieces[i]
  }

  /** Pieces without separators come back from their join unchanged. */
  lemma {:induction false} SplitJoin(pieces: seq<string>)
    requires |pieces| >= 1 && Plain(pieces)
    ensures Split(Join(pieces)) == pieces
  {
    assert '/' !in pieces[0];
    SplitNoSeparator(pieces[0]);
    if |pieces| > 1 {
      assert Plain(pieces[1..]) by {
        forall i | 0 <= i < |pieces[1..]| ensures '/' !in pieces[1..][i] { assert pieces[1..][i] == pieces[i + 1]; }
      }
      SplitJoin(pieces[1..]);
      SplitAround(pieces[0], Join(pieces[1..]));
    }
  }

  /** One step of `Split`, stated once so that proofs need not unfold it. */
  lemma SplitStep(s: string)
    requires s != []
    ensures s[0] == '/' ==> Split(s) == [""] + Split(s[1..])
    ensures s[0] != '/' ==> Split(s) == [[s[0]] + Split(s[1..])[0]] + Split(s[1..])[1..]
  {
  }

  /** A `/` between two strings separates their pieces. */
  lemma {:induction false} SplitAround(a: string, b: string)
    ensures Split(a + "/" + b) == Split(a) + Split(b)
  {
    if a == [] {
      var s := a + "/" + b;
      SplitStep(s);
      assert s[1..] == b;
    } else {
      SplitAround(a[1..], b);
      SplitAroundStep(a, b);
    }
  }

  /** The inductive step of `SplitAround`, for a non-empty left part. */
  lemma SplitAroundStep(a: string, b: string)
    requires a != []
    requires Split(a[1..] + "/" + b) == Split(a[1..]) + Split(b)
    ensures Split(a + "/" + b) == Split(a) + Split(b)
  {
    var c, a' := a[0], a[1..];
    assert a == [c] + a';
    assert a + "/" + b == [c] + (a' + "/" + b);
    SplitCons(c, a' + "/" + b);
    SplitCons(c, a');
    PiecesAppend(c, Split(a'), Split(b));
  }

  /** Sequence bookkeeping for `SplitAroundStep`. */
  lemma PiecesAppend(c: char, tail: seq<string>, bs: seq<string>)
    requires |tail| >= 1
    ensures [""] + (tail + bs) == ([""] + tail) + bs
    ensures [[c] + (tail + bs)[0]] + (tail + bs)[1..] == ([[c] + tail[0]] + tail[1..]) + bs
  {
    assert (tail + bs)[0] == tail[0];
    assert (tail + bs)[1..] == tail[1..] + bs;
  }

  /** `Split` of a string given as its first character and the rest. */
  lemma SplitCons(c: char, rest: string)
    ensures c == '/' ==> Split([c] + rest) == [""] + Split(rest)
    ensures c != '/' ==> Split([c] + rest) == [[c] + Split(rest)[0]] + Split(rest)[1..]
  {
    var s := [c] + rest;
    assert s[0] == c && s[1..] == rest;
  }

  /** A string without separators is a single piece. */
  lemma {:induction false} SplitNoSeparator(s: string)
    requires '/' !in s
    ensures Split(s) == [s]
  {
    if s != [] {
      assert '/' !in s[1..] by {
        forall i | 0 <= i < |s[1..]| ensures s[1..][i] != '/' { assert s[1..][i] == s[i + 1]; }
      }
      SplitNoSeparator(s[1..]);
      assert [s[0]] + s[1..] == s;
    }
  }

  /** A name a `Normal` component can carry. */
  predicate IsName(n: string)
  {
    n != "" && n != "." && n != ".."
  }

  /** What one piece between separators contributes once parsed. */
  function PieceComponents(piece: string): (p: Path)
    ensures |p| <= 1
  {
    if piece == "" || piece == "." then []
    else if piece == ".." then [ParentDir]
    else [Normal(piece)]
  }

  /** The components of the pieces that follow the start of a path. */
  function Normalize(pieces: seq<string>): (p: Path)
    ensures |p| > 0 ==> p[0] == ParentDir || p[0].Normal?
  {
    if pieces == [] then [] else PieceComponents(pieces[0]) + Normalize(pieces[1..])
  }

  /** Normalised pieces are `..` or proper names, never a root or a `.`. */
  lemma {:induction false} NormalizeNames(pieces: seq<string>)
    ensures forall i :: 0 <= i < |Normalize(pieces)| ==>
      Normalize(pieces)[i] == ParentDir || (Normalize(pieces)[i].Normal? && IsName(Normalize(pieces)[i].name))
  {
    if pieces != [] {
      NormalizeNames(pieces[1..]);
      var head, tail := PieceComponents(pieces[0]), Normalize(pieces[1..]);
      assert Normalize(pieces) == head + tail;
      forall i | 0 <= i < |head + tail|
        ensures (head + tail)[i] == ParentDir || ((head + tail)[i].Normal? && IsName((head + tail)[i].name))
      {
        if i >= |head| { assert (head + tail)[i] == tail[i - |head|]; }
      }
    }
  }

  lemma {:induction false} NormalizeAppend(a: seq<string>, b: seq<string>)
    ensures Normalize(a + b) == Normalize(a) + Normalize(b)
  {
    if a == [] {
      assert a + b == b;
    } else {
      assert (a + b)[0] == a[0];
      assert (a + b)[1..] == a[1..] + b;
      NormalizeAppend(a[1..], b);
    }
  }

  /** A path as `Path::components` sees it: the root component for a
      leading `/`, a `CurDir` only when a relative path starts with a `.`
      piece, and nothing for empty or other `.` pieces. */
  predicate WellFormed(p: Path)
  {
    (forall i :: 0 <= i < |p| && (p[i] == RootDir || p[i] == CurDir) ==> i == 0)
    && (forall i :: 0 <= i < |p| && p[i].Normal? ==> IsName(p[i].name))
  }

  /** `Path::new(s).components()`. */
  function Parse(s: string): (p: Path)
    ensures IsAbsolute(p) <==> |s| > 0 && s[0] == '/'
  {
    var pieces := Split(s);
    if |s| > 0 && s[0] == '/' then [RootDir] + Normalize(pieces[1..])
    else if pieces[0] == "." then [CurDir] + Normalize(pieces[1..])
    else Normalize(pieces)
  }

  /** Whatever the string, its components are well formed. */
  lemma ParseWellFormed(s: string)
    ensures WellFormed(Parse(s))
  {
    var pieces := Split(s);
    if |s| > 0 && s[0] == '/' {
      NormalizeNames(pieces[1..]);
    } else if pieces[0] == "." {
      NormalizeNames(pieces[1..]);
    } else {
      NormalizeNames(pieces);
    }
  }

  predicate IsAbsolute(p: Path)
  {
    |p| > 0 && p[0] == RootDir
  }

  /** `Path::strip_prefix`: the components after `base` when `base` is a
      component-wise prefix, `None` otherwise. */
  function StripPrefix(p: Path, base: Path): (rest: Option<Path>)
    ensures rest.Some? <==> |base| <= |p| && p[..|base|] == base
    ensures rest.Some? ==> base + rest.value == p
  {
    if |base| <= |p| && p[..|base|] == base then Some(p[|base|..]) else None
  }

  /** `PathBuf::push`: an absolute path replaces the base; otherwise the
      components are appended (a leading `.` of the pushed path disappears
      once it follows a separator). */
  function Push(base: Path, p: Path): (r: Path)
    ensures IsAbsolute(p) ==> r == p
    ensures !IsAbsolute(p) && base != [] && (p == [] || p[0] != CurDir) ==> r == base + p
  {
    if IsAbsolute(p) then p
    else if base == [] then p
    else if |p| > 0 && p[0] == CurDir then base + p[1..]
    else base + p
  }

  /** `Path::parent`: drop the last component unless the path is empty or
      only a root. */
  function Parent(p: Path): (r: Option<Path>)
    ensures r.Some? ==> |r.value| + 1 == |p| && p[..|r.value|] == r.value
    ensures r.None? <==> p == [] || p[|p| - 1] == RootDir
  {
    if |p| > 0 && p[|p| - 1] != RootDir then Some(p[..|p| - 1]) else None
  }

  /** `Path::file_name`: the last component when it is a plain name. */
  function FileName(p: Path): (r: Option<string>)
    ensures r.Some? <==> |p| > 0 && p[|p| - 1].Normal?
  {
    if |p| > 0 && p[|p| - 1].Normal? then Some(p[|p| - 1].name) else None
  }

  /** The pieces of `base/rel`: those of `base`, then those of `rel`. */
  lemma SplitUnder(base: string, rel: string)
    requires base != ""
    ensures Split(base + "/" + rel)[0] == Split(base)[0]
    ensures Split(base + "/" + rel)[1..] == Split(base)[1..] + Split(rel)
  {
    SplitAround(base, rel);
    var a, b := Split(base), Split(rel);
    assert (a + b)[0] == a[0];
    assert (a + b)[1..] == a[1..] + b;
  }

  /** `Parse` split into its three shapes, one fact per shape. */
  lemma ParseShape(s: string)
    requires s != ""
    ensures s[0] == '/' ==> Parse(s) == [RootDir] + Normalize(Split(s)[1..])
    ensures s[0] != '/' && Split(s)[0] == "." ==> Parse(s) == [CurDir] + Normalize(Split(s)[1..])
    ensures s[0] != '/' && Split(s)[0] != "." ==> Parse(s) == PieceComponents(Split(s)[0]) + Normalize(Split(s)[1..])
  {
  }

  /** Parsing `base/rel` gives the components of `base` followed by those of
      `rel`: a separator after a non-empty base only ever adds pieces. */
  lemma ParseUnder(base: string, rel: string)
    requires base != ""
    ensures Parse(base + "/" + rel) == Parse(base) + Normalize(Split(rel))
  {
    var s := base + "/" + rel;
    var a, b := Split(base), Split(rel);
    assert s[0] == base[0];
    SplitUnder(base, rel);
    NormalizeAppend(a[1..], b);
    var tail := Normalize(a[1..]) + Normalize(b);
    assert Normalize(Split(s)[1..]) == tail;
    ParseShape(s);
    ParseShape(base);
    var head := if base[0] == '/' then [RootDir] else if a[0] == "." then [CurDir] else PieceComponents(a[0]);
    assert Parse(s) == head + tail;
    assert Parse(base) == head + Normalize(a[1..]);
    ConcatAssoc(head, Normalize(a[1..]), Normalize(b));
  }

  /** Only the empty string parses to the empty path. */
  lemma ParseNonEmpty(s: string)
    requires s != ""
    ensures Parse(s) != []
  {
    ParseShape(s);
    if s[0] != '/' {
      var rest := Split(s[1..]);
      assert Split(s)[0] == [s[0]] + rest[0];
    }
  }
}

/** `get_all_objects`: enumerate a storage zone below a path with an explicit
    stack of paths still to list. The one-level listing request is a
    parameter; termination rests on the remote tree being finite and
    acyclic, expressed by a rank that every sub-directory lowers. */
module RemoteWalk {
  import opened Common
  import opened Storage

  /** The one-level listing of a path, as `get_objects` returns it. */
  type Listing = string -> Result<seq<StorageObject>>

  /** The path pushed for a directory record. */
  function SubPath(o: StorageObject): string
  {
    o.path + o.objectName + "/"
  }

  /** The paths pushed while scanning `rs`, in push order. */
  function SubPaths(rs: seq<StorageObject>): (ps: seq<string>)
    ensures |ps| <= |rs|
  {
    if rs == [] then []
    else
      var last := rs[|rs| - 1];
      SubPaths(rs[..|rs| - 1]) + (if last.isDirectory then [SubPath(last)] else [])
  }

  lemma {:induction false} SubPathsAppend(a: seq<StorageObject>, b: seq<StorageObject>)
    ensures SubPaths(a + b) == SubPaths(a) + SubPaths(b)
  {
    if b != [] {
      SubPathsAppend(a, b[..|b| - 1]);
      assert (a + b)[..|a + b| - 1] == a + b[..|b| - 1];
    } else {
      assert a + b == a;
    }
  }

  /** Every directory listed under `p` has a lower rank than `p`: the tree
      below any path is finite and has no cycle. */
  ghost predicate Acyclic(list: Listing, rank: string -> nat)
  {
    forall p, o :: list(p).Ok? && o in list(p).value && o.isDirectory ==> rank(SubPath(o)) < rank(p)
  }

  ghost predicate RanksBelow(rank: string -> nat, rs: seq<StorageObject>, bound: nat)
  {
    forall o :: o in rs && o.isDirectory ==> rank(SubPath(o)) < bound
  }

  /** How many listings the walk of the tree below `p` performs. */
  ghost function Size(list: Listing, rank: string -> nat, p: string): (n: nat)
    requires Acyclic(list, rank)
    ensures n >= 1
    decreases rank(p) + 1, 0
  {
    match list(p)
    case Err(_) => 1
    case Ok(rs) => 1 + SizesOf(list, rank, rs, rank(p))
  }

  ghost function SizesOf(list: Listing, rank: string -> nat, rs: seq<StorageObject>, bound: nat): nat
    requires Acyclic(list, rank) && RanksBelow(rank, rs, bound)
    decreases bound, |rs|
  {
    if rs == [] then 0
    else
      var last := rs[|rs| - 1];
      assert last in rs;
      assert forall o :: o in rs[..|rs| - 1] ==> o in rs;
      SizesOf(list, rank, rs[..|rs| - 1], bound) + (if last.isDirectory then Size(list, rank, SubPath(last)) else 0)
  }

  /** The listings still owed to a stack of paths. */
  ghost function StackSize(list: Listing, rank: string -> nat, paths: seq<string>): nat
    requires Acyclic(list, rank)
  {
    if paths == [] then 0
    else StackSize(list, rank, paths[..|paths| - 1]) + Size(list, rank, paths[|paths| - 1])
  }

  lemma {:induction false} StackSizeAppend(list: Listing, rank: string -> nat, a: seq<string>, b: seq<string>)
    requires Acyclic(list, rank)
    ensures StackSize(list, rank, a + b) == StackSize(list, rank, a) + StackSize(list, rank, b)
  {
    if b != [] {
      StackSizeAppend(list, rank, a, b[..|b| - 1]);
      assert (a + b)[..|a + b| - 1] == a + b[..|b| - 1];
    } else {
      assert a + b == a;
    }
  }

  lemma {:induction false} StackSizeOfSubPaths(list: Listing, rank: string -> nat, rs: seq<StorageObject>, bound: nat)
    requires Acyclic(list, rank) && RanksBelow(rank, rs, bound)
    ensures StackSize(list, rank, SubPaths(rs)) == SizesOf(list, rank, rs, bound)
  {
    if rs != [] {
      var init, last := rs[..|rs| - 1], rs[|rs| - 1];
      assert forall o :: o in init ==> o in rs;
      StackSizeOfSubPaths(list, rank, init, bound);
      var tail := if last.isDirectory then [SubPath(last)] else [];
      StackSizeAppend(list, rank, SubPaths(init), tail);
      if last.isDirectory {
        assert tail[..0] == [];
      }
    }
  }

  /** Popping a path and pushing its sub-directories lowers the stack size. */
  lemma PopDecreases(list: Listing, rank: string -> nat, paths: seq<string>)
    requires Acyclic(list, rank) && paths != [] && list(paths[|paths| - 1]).Ok?
    ensures StackSize(list, rank, paths[..|paths| - 1] + SubPaths(list(paths[|paths| - 1]).value))
          < StackSize(list, rank, paths)
  {
    var p := paths[|paths| - 1];
    var rs := list(p).value;
    StackSizeAppend(list, rank, paths[..|paths| - 1], SubPaths(rs));
    StackSizeOfSubPaths(list, rank, rs, rank(p));
  }

  /** The outcome of the worklist loop from a given stack and accumulator:
      pop the last path, list it, stop on an error, else push the
      sub-directories and keep the records. */
  ghost function Traverse(list: Listing, rank: string -> nat, paths: seq<string>, objects: seq<StorageObject>)
    : Result<seq<StorageObject>>
    requires Acyclic(list, rank)
    decreases StackSize(list, rank, paths)
  {
    if paths == [] then Ok(objects)
    else
      var p := paths[|paths| - 1];
      match list(p)
      case Err(e) => Err(e)
      case Ok(rs) =>
        PopDecreases(list, rank, paths);
        Traverse(list, rank, paths[..|paths| - 1] + SubPaths(rs), objects + rs)
  }

  /** The paths the loop lists, in order, up to and including a failing one. */
  ghost function Visits(list: Listing, rank: string -> nat, paths: seq<string>): seq<string>
    requires Acyclic(list, rank)
    decreases StackSize(list, rank, paths)
  {
    if paths == [] then []
    else
      var p := paths[|paths| - 1];
      match list(p)
      case Err(_) => [p]
      case Ok(rs) =>
        PopDecreases(list, rank, paths);
        [p] + Visits(list, rank, paths[..|paths| - 1] + SubPaths(rs))
  }

  /** Every record the listings of `visits` return, in order. */
  function Concat(list: Listing, visits: seq<string>): seq<StorageObject>
  {
    if visits == [] then []
    else (if list(visits[0]).Ok? then list(visits[0]).value else []) + Concat(list, visits[1..])
  }

  predicate AllListed(list: Listing, visits: seq<string>)
  {
    forall i :: 0 <= i < |visits| ==> list(visits[i]).Ok?
  }

  /** A successful walk returns the accumulator followed by the records of
      every listing, in the order the paths were popped. */
  lemma {:induction false} TraverseConcat(list: Listing, rank: string -> nat, paths: seq<string>, objects: seq<StorageObject>)
    requires Acyclic(list, rank) && Traverse(list, rank, paths, objects).Ok?
    ensures AllListed(list, Visits(list, rank, paths))
    ensures Traverse(list, rank, paths, objects).value == objects + Concat(list, Visits(list, rank, paths))
    decreases StackSize(list, rank, paths)
  {
    if paths != [] {
      var p := paths[|paths| - 1];
      var rs := list(p).value;
      var next := paths[..|paths| - 1] + SubPaths(rs);
      PopDecreases(list, rank, paths);
      TraverseConcat(list, rank, next, objects + rs);
      var vs := Visits(list, rank, next);
      assert Visits(list, rank, paths) == [p] + vs;
      assert ([p] + vs)[1..] == vs;
      forall i | 0 <= i < |[p] + vs| ensures list(([p] + vs)[i]).Ok? {
        if i > 0 { assert ([p] + vs)[i] == vs[i - 1]; }
      }
    }
  }

  /** One turn of the loop, on the specification side. */
  lemma Pop(list: Listing, rank: string -> nat, paths: seq<string>, objects: seq<StorageObject>)
    requires Acyclic(list, rank) && paths != [] && list(paths[|paths| - 1]).Ok?
    ensures var p, rs := paths[|paths| - 1], list(paths[|paths| - 1]).value;
      var next := paths[..|paths| - 1] + SubPaths(rs);
      StackSize(list, rank, next) < StackSize(list, rank, paths)
      && Visits(list, rank, paths) == [p] + Visits(list, rank, next)
      && Traverse(list, rank, paths, objects) == Traverse(list, rank, next, objects + rs)
  {
    PopDecreases(list, rank, paths);
  }

  /** A turn whose listing fails ends the walk with that failure. */
  lemma PopFails(list: Listing, rank: string -> nat, paths: seq<string>, objects: seq<StorageObject>)
    requires Acyclic(list, rank) && paths != [] && list(paths[|paths| - 1]).Err?
    ensures Traverse(list, rank, paths, objects) == Err(list(paths[|paths| - 1]).error)
    ensures Visits(list, rank, paths) == [paths[|paths| - 1]]
  {
  }

  /** A turn of a walk that succeeds: the listing succeeds and the rest of
      the walk succeeds. */
  lemma PopWalk(list: Listing, rank: string -> nat, paths: seq<string>, objects: seq<StorageObject>)
    requires Acyclic(list, rank) && paths != [] && Traverse(list, rank, paths, objects).Ok?
    ensures var p := paths[|paths| - 1];
      list(p).Ok?
      && var next := paths[..|paths| - 1] + SubPaths(list(p).value);
      StackSize(list, rank, next) < StackSize(list, rank, paths)
      && Visits(list, rank, paths) == [p] + Visits(list, rank, next)
      && Traverse(list, rank, next, objects + list(p).value).Ok?
      && paths == paths[..|paths| - 1] + [p]
  {
    Pop(list, rank, paths, objects);
  }

  lemma ConcatCons(list: Listing, p: string, vs: seq<string>)
    requires list(p).Ok?
    ensures Concat(list, [p] + vs) == list(p).value + Concat(list, vs)
  {
    assert ([p] + vs)[1..] == vs;
  }

  /** A successful walk lists each path on the stack once, and, for every
      directory record it returns, that record's sub-path once: no other
      listing happens. */
  lemma {:induction false} VisitsCount(list: Listing, rank: string -> nat, paths: seq<string>, objects: seq<StorageObject>)
    requires Acyclic(list, rank) && Traverse(list, rank, paths, objects).Ok?
    ensures multiset(Visits(list, rank, paths))
         == multiset(paths + SubPaths(Concat(list, Visits(list, rank, paths))))
    decreases StackSize(list, rank, paths)
  {
    if paths != [] {
      var p := paths[|paths| - 1];
      var init := paths[..|paths| - 1];
      var rs := list(p).value;
      PopWalk(list, rank, paths, objects);
      var next := init + SubPaths(rs);
      VisitsCount(list, rank, next, objects + rs);
      VisitsCountStep(list, init, p, Visits(list, rank, next));
    }
  }

  /** The multiset bookkeeping of one turn of `VisitsCount`. */
  lemma VisitsCountStep(list: Listing, init: seq<string>, p: string, vs: seq<string>)
    requires list(p).Ok?
    requires multiset(vs) == multiset(init + SubPaths(list(p).value) + SubPaths(Concat(list, vs)))
    ensures multiset([p] + vs) == multiset(init + [p] + SubPaths(Concat(list, [p] + vs)))
  {
    var rs, cs := list(p).value, Concat(list, vs);
    ConcatCons(list, p, vs);
    SubPathsAppend(rs, cs);
    MultisetMove(init, p, SubPaths(rs), SubPaths(cs), vs);
  }

  lemma MultisetMove<T>(init: seq<T>, p: T, xs: seq<T>, ys: seq<T>, vs: seq<T>)
    requires multiset(vs) == multiset(init + xs + ys)
    ensures multiset([p] + vs) == multiset(init + [p] + (xs + ys))
  {
    calc {
      multiset([p] + vs);
      multiset([p]) + multiset(init) + multiset(xs) + multiset(ys);
      multiset(init + [p] + (xs + ys));
    }
  }

  /** Starting from one path: a successful walk lists one path more than it
      returns directory records. */
  lemma ListingCount(list: Listing, rank: string -> nat, root: string)
    requires Acyclic(list, rank) && Traverse(list, rank, [root], []).Ok?
    ensures |Visits(list, rank, [root])| == 1 + |SubPaths(Traverse(list, rank, [root], []).value)|
    ensures Visits(list, rank, [root])[0] == root
  {
    TraverseConcat(list, rank, [root], []);
    VisitsCount(list, rank, [root], []);
    assert [] + Concat(list, Visits(list, rank, [root])) == Concat(list, Visits(list, rank, [root]));
    var vs := Visits(list, rank, [root]);
    assert |multiset(vs)| == |vs|;
    assert vs == [root] + Visits(list, rank, SubPaths(list(root).value)) by {
      assert [root][..0] + SubPaths(list(root).value) == SubPaths(list(root).value);
    }
  }

  /** A failed walk fails with the error of the last listing it made, and
      every listing before that one succeeded. */
  lemma {:induction false} TraverseError(list: Listing, rank: string -> nat, paths: seq<string>, objects: seq<StorageObject>)
    requires Acyclic(list, rank) && Traverse(list, rank, paths, objects).Err?
    ensures Visits(list, rank, paths) != []
    ensures var vs := Visits(list, rank, paths);
      list(vs[|vs| - 1]) == Err(Traverse(list, rank, paths, objects).error)
      && AllListed(list, vs[..|vs| - 1])
    decreases StackSize(list, rank, paths)
  {
    var p := paths[|paths| - 1];
    if list(p).Ok? {
      var rs := list(p).value;
      var next := paths[..|paths| - 1] + SubPaths(rs);
      PopDecreases(list, rank, paths);
      TraverseError(list, rank, next, objects + rs);
      var vs := Visits(list, rank, next);
      assert Visits(list, rank, paths) == [p] + vs;
      var all := [p] + vs;
      assert all[|all| - 1] == vs[|vs| - 1];
      var before := all[..|all| - 1];
      assert before == [p] + vs[..|vs| - 1];
      forall i | 0 <= i < |before| ensures list(before[i]).Ok? {
        if i > 0 { assert before[i] == vs[..|vs| - 1][i - 1]; }
      }
    }
  }

  /** The inner loop of `get_all_objects`: push the path of every directory
      record, in order. */
  method PushSubPaths(paths: seq<string>, rs: seq<StorageObject>) returns (ps: seq<string>)
    ensures ps == paths + SubPaths(rs)
  {
    ps := paths;
    var i := 0;
    while i < |rs|
      invariant 0 <= i <= |rs|
      invariant ps == paths + SubPaths(rs[..i])
    {
      assert rs[..i + 1][..i] == rs[..i];
      if rs[i].isDirectory {
        ps := ps + [SubPath(rs[i])];
      }
      i := i + 1;
    }
    assert rs[..|rs|] == rs;
  }

  /** The worklist loop of `get_all_objects`. `listed` is every path the
      loop asked to be listed, in order, up to and including a failing one. */
  method GetAllObjects(list: Listing, ghost rank: string -> nat, path: string)
    returns (r: Result<seq<StorageObject>>, ghost listed: seq<string>)
    requires Acyclic(list, rank)
    ensures r == Traverse(list, rank, [path], [])
    ensures listed == Visits(list, rank, [path])
  {
    var objects: seq<StorageObject> := [];
    var paths := [path];
    listed := [];
    while paths != []
      invariant Traverse(list, rank, paths, objects) == Traverse(list, rank, [path], [])
      invariant listed + Visits(list, rank, paths) == Visits(list, rank, [path])
      decreases StackSize(list, rank, paths)
    {
      ghost var stack := paths;
      var next := paths[|paths| - 1];
      var records := list(next);
      if records.Err? {
        PopFails(list, rank, stack, objects);
        listed := listed + [next];
        return Err(records.error), listed;
      }
      Pop(list, rank, stack, objects);
      paths := PushSubPaths(paths[..|paths| - 1], records.value);
      objects := objects + records.value;
      ConcatAssoc(listed, [next], Visits(list, rank, paths));
      listed := listed + [next];
    }
    assert listed + [] == listed;
    return Ok(objects), listed;
  }
}

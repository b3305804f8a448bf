/** Types shared by every part of the model: optional values, results and the
    error kinds the synchronisation run can end with. */
module Common {

  /** One byte of file or object content. */
  newtype byte = x: int | 0 <= x < 256

  type Bytes = seq<byte>

  datatype Option<+T> = None | Some(value: T)

  /** Why an operation failed. The remote kinds follow the storage service's
      HTTP statuses; every filesystem failure is `Io`; `ConfigSyntax` is a
      configuration file that is present but not valid TOML. */
  datatype Error =
    | Unauthorized                 // HTTP 401
    | NotFound(path: string)       // HTTP 404
    | Forbidden(path: string)      // HTTP 403
    | HttpStatus(status: int)      // any other status that is not a success
    | Transport                    // the request produced no response at all
    | Io                           // a filesystem call failed
    | ConfigSyntax                 // the configuration file could not be parsed

  datatype Result<+T> = Ok(value: T) | Err(error: Error)

  /** No element occurs twice. */
  predicate NoDup<T(==)>(s: seq<T>)
  {
    forall i, j :: 0 <= i < j < |s| ==> s[i] != s[j]
  }

  /** `order` lists every element of `keys` exactly once: one possible
      iteration order of a hash map whose key set is `keys`. */
  predicate Enumerates(order: seq<string>, keys: set<string>)
  {
    NoDup(order) && (forall x :: x in order ==> x in keys) && (forall x :: x in keys ==> x in order)
  }

  /** Some iteration order of a finite set. */
  ghost function Enumerate(keys: set<string>): (order: seq<string>)
    ensures Enumerates(order, keys)
    decreases keys
  {
    if keys == {} then []
    else
      var x :| x in keys;
      [x] + Enumerate(keys - {x})
  }

  lemma EnumeratesJoin(a: seq<string>, s: set<string>, b: seq<string>, t: set<string>)
    requires Enumerates(a, s) && Enumerates(b, t) && s !! t
    ensures Enumerates(a + b, s + t)
  {
    forall i, j | 0 <= i < j < |a + b| ensures (a + b)[i] != (a + b)[j] {
      if j < |a| {
      } else if i >= |a| {
        assert (a + b)[i] == b[i - |a|] && (a + b)[j] == b[j - |a|];
      } else {
        assert (a + b)[i] == a[i] && a[i] in s;
        assert (a + b)[j] == b[j - |a|] && b[j - |a|] in t;
      }
    }
  }

  /** Visiting one more key extends an enumeration. */
  lemma EnumeratesSnoc(order: seq<string>, visited: set<string>, k: string)
    requires Enumerates(order, visited) && k !in visited
    ensures Enumerates(order + [k], visited + {k})
  {
    EnumeratesJoin(order, visited, [k], {k});
  }

  /** Concatenation regroups freely. */
  lemma ConcatAssoc<T>(x: seq<T>, y: seq<T>, z: seq<T>)
    ensures x + (y + z) == (x + y) + z
  {
  }
}

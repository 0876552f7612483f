/** Small shared vocabulary: optional values, results, counting. */
module Common {

  /** A value that may be absent; Python's `None` becomes `None`. */
  datatype Option<+T> = None | Some(value: T) {
    function GetOr(default: T): T {
      match this
      case Some(v) => v
      case None => default
    }
  }

  /** The outcome of an operation that can fail: a value or the error it raised. */
  datatype Result<+T, +E> = Ok(value: T) | Err(error: E)

  /** Number of occurrences of `x` in `s`. */
  function Count<T(==)>(s: seq<T>, x: T): (n: nat)
    ensures n <= |s|
    ensures n == 0 <==> x !in s
    decreases |s|
  {
    if s == [] then 0
    else
      var k := |s| - 1;
      assert s == s[..k] + [s[k]];
      Count(s[..k], x) + (if s[k] == x then 1 else 0)
  }

  /** The elements of `s`, as Python's `set(s)`. */
  function SetOf<T>(s: seq<T>): set<T> {
    set x | x in s
  }

  /** No element occurs twice. */
  predicate Distinct<T(==)>(s: seq<T>) {
    forall i, j :: 0 <= i < j < |s| ==> s[i] != s[j]
  }
}

/** Small helpers shared by the model: optional values, results with an
    error, and the first-match lookup that every handler performs with
    JavaScript's `Array.prototype.find`. */
module Common {

  datatype Option<+T> = None | Some(value: T)

  datatype Result<+T, +E> = Success(value: T) | Failure(error: E)

  /** What a route answers when it changes state: success, or the error it
      reports before anything is written back. */
  datatype Outcome<+E> = Pass | Fail(error: E)

  /** Index of the FIRST occurrence of `x` in `s`, as `find` returns the
      first element whose key matches. */
  function IndexOf<T(==)>(s: seq<T>, x: T): (r: Option<nat>)
    ensures r.Some? ==> r.value < |s| && s[r.value] == x
    ensures r.Some? ==> forall j :: 0 <= j < r.value ==> s[j] != x
    ensures r.None? <==> x !in s
  {
    if |s| == 0 then None
    else if s[0] == x then Some(0)
    else match IndexOf(s[1..], x)
      case None => None
      case Some(k) => Some(k + 1)
  }

  /** The key of every element of `s`, in order: `s.map(key)`. */
  function Map<T, K>(s: seq<T>, key: T -> K): (keys: seq<K>)
    ensures |keys| == |s| && forall j :: 0 <= j < |s| ==> keys[j] == key(s[j])
  {
    seq(|s|, j requires 0 <= j < |s| => key(s[j]))
  }

  /** `a` and `b` have the same length and differ at most at index `i`. */
  predicate SameExcept<T(==)>(a: seq<T>, b: seq<T>, i: nat) {
    |a| == |b| && i < |a| && forall j :: 0 <= j < |a| && j != i ==> a[j] == b[j]
  }

  /** Appending an element moves no earlier first occurrence, and the new
      element is found only when nothing before it matches. */
  lemma {:induction false} IndexOfAppend<T>(s: seq<T>, y: T, x: T)
    ensures IndexOf(s + [y], x) == if x in s then IndexOf(s, x) else if y == x then Some(|s|) else None
  {
    if |s| > 0 {
      assert (s + [y])[0] == s[0];
      assert (s + [y])[1..] == s[1..] + [y];
      IndexOfAppend(s[1..], y, x);
    }
  }
}

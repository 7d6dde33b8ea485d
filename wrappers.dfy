/** The Option datatype and the one sequence search shared by the modules of the model. */
module Wrappers {

  /** `None` stands for JavaScript `undefined`/`null` where the source returns "nothing". */
  datatype Option<+T> = None | Some(value: T) {

    function GetOr(default: T): (r: T)
    {
      match this
      case Some(v) => v
      case None => default
    }
  }

  /**
   * `findIndex(x => key(x) === k)`: the position of the first element
   * whose key is `k`, or -1 when there is none.
   */
  function FirstIndex<T, K(==)>(s: seq<T>, key: T -> K, k: K): (r: int)
    ensures r == -1 <==> forall i :: 0 <= i < |s| ==> key(s[i]) != k
    ensures 0 <= r ==> r < |s| && key(s[r]) == k && forall i :: 0 <= i < r ==> key(s[i]) != k
  {
    if s == [] then -1
    else if key(s[0]) == k then 0
    else
      var r := FirstIndex(s[1..], key, k);
      if r < 0 then -1 else r + 1
  }
}

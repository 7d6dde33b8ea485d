/**
 * Already-parsed JSON values, with the few JavaScript operations the core
 * applies to them: truthiness, `typeof` (with arrays singled out),
 * own-property lookup and property assignment on objects.
 */
module JsonValues {
  import opened Wrappers
  import opened Strings

  /**
   * A value produced by `JSON.parse`. Numbers are integers. An object lists
   * its members in the order JavaScript enumerates them.
   */
  datatype Json =
    | JNull
    | JBool(b: bool)
    | JNum(n: int)
    | JStr(s: string)
    | JArr(items: seq<Json>)
    | JObj(members: seq<(string, Json)>)

  /** `JSON.parse` itself is a library call; the model receives it as a function. */
  type Parser = string -> Option<Json>

  /** JavaScript truthiness of a JSON value. */
  predicate Truthy(j: Json)
  {
    match j
    case JNull => false
    case JBool(b) => b
    case JNum(n) => n != 0
    case JStr(s) => s != ""
    case JArr(_) => true
    case JObj(_) => true
  }

  /** `Array.isArray(v) ? 'array' : typeof v`. */
  function TypeName(j: Json): (r: string)
  {
    match j
    case JNull => "object"
    case JBool(_) => "boolean"
    case JNum(_) => "number"
    case JStr(_) => "string"
    case JArr(_) => "array"
    case JObj(_) => "object"
  }

  /** The value of the first member named `k`, or `None`. */
  function Get(ms: seq<(string, Json)>, k: string): (r: Option<Json>)
    ensures r.None? <==> forall i :: 0 <= i < |ms| ==> ms[i].0 != k
    ensures r.Some? ==> exists i :: 0 <= i < |ms| && ms[i] == (k, r.value)
  {
    if ms == [] then None
    else if ms[0].0 == k then Some(ms[0].1)
    else
      var r := Get(ms[1..], k);
      assert r.Some? ==> ms[1..][0..] == ms[1..];
      r
  }

  /** `o[k] = v` on an object: the first member named `k` is replaced in place, otherwise a member is appended. */
  function Put(ms: seq<(string, Json)>, k: string, v: Json): (r: seq<(string, Json)>)
    ensures Get(r, k) == Some(v)
    ensures forall k' :: k' != k ==> Get(r, k') == Get(ms, k')
    ensures |r| == |ms| || |r| == |ms| + 1
  {
    if ms == [] then [(k, v)]
    else if ms[0].0 == k then [(k, v)] + ms[1..]
    else [ms[0]] + Put(ms[1..], k, v)
  }

  /** A canonical array index such as "0" or "17" (not "01", "-1" or "1.0"). */
  function ArrayIndex(p: string): (r: Option<nat>)
    ensures r.Some? ==> IntText(r.value) == p
  {
    match ParseNumber(p)
    case Some(n) => if n >= 0 && IntText(n) == p then Some(n as nat) else None
    case None => None
  }

  lemma ArrayIndexOfText(n: nat)
    ensures ArrayIndex(IntText(n)) == Some(n)
  {
    ParseIntText(n);
  }

  /**
   * `Object.prototype.hasOwnProperty.call(j, p) ? j[p] : undefined` for a
   * parsed value: members of an object, indices and `length` of an array or
   * a string; numbers, booleans and null have no own properties.
   */
  function OwnProperty(j: Json, p: string): (r: Option<Json>)
  {
    match j
    case JObj(ms) => Get(ms, p)
    case JArr(items) =>
      if p == "length" then Some(JNum(|items|))
      else (match ArrayIndex(p)
        case Some(i) => if i < |items| then Some(items[i]) else None
        case None => None)
    case JStr(s) =>
      if p == "length" then Some(JNum(|s|))
      else (match ArrayIndex(p)
        case Some(i) => if i < |s| then Some(JStr([s[i]])) else None
        case None => None)
    case _ => None
  }

  /**
   * The (key, value) pairs a `for…in` loop visits: the members of an object,
   * the indices of an array or of a string; nothing for other values.
   */
  function ForInEntries(j: Json): (es: seq<(string, Json)>)
    ensures j.JObj? ==> es == j.members
    ensures !(j.JObj? || j.JArr? || j.JStr?) ==> es == []
  {
    match j
    case JObj(ms) => ms
    case JArr(items) => seq(|items|, i requires 0 <= i < |items| => (IntText(i), items[i]))
    case JStr(s) => seq(|s|, i requires 0 <= i < |s| => (IntText(i), JStr([s[i]])))
    case _ => []
  }

  /** No two members share a name, as in any object `JSON.parse` returns. */
  predicate DistinctNames(ms: seq<(string, Json)>)
  {
    forall i, k :: 0 <= i < k < |ms| ==> ms[i].0 != ms[k].0
  }

  lemma IndexTextIsNotLength(n: nat)
    ensures IntText(n) != "length"
  {
    IntTextShape(n);
    assert IsDigit(IntText(n)[0]);
  }

  /**
   * `for…in` visits exactly the enumerable own properties: every pair it
   * visits is an own property with that value (for an object, when its
   * names are distinct), and every own property other than the `length`
   * of an array or a string is visited. An array yields one pair per
   * item, a string one per character.
   */
  lemma ForInOwnProperties(j: Json, p: string, v: Json)
    ensures (p, v) in ForInEntries(j) && (!j.JObj? || DistinctNames(j.members)) ==> OwnProperty(j, p) == Some(v)
    ensures OwnProperty(j, p) == Some(v) && (j.JObj? || p != "length") ==> (p, v) in ForInEntries(j)
    ensures j.JArr? ==> |ForInEntries(j)| == |j.items|
    ensures j.JStr? ==> |ForInEntries(j)| == |j.s|
  {
    var es := ForInEntries(j);
    if (p, v) in es {
      var k :| 0 <= k < |es| && es[k] == (p, v);
      if j.JObj? && DistinctNames(j.members) {
        FirstNamed(j.members, k);
      } else if j.JArr? || j.JStr? {
        ArrayIndexOfText(k);
        IndexTextIsNotLength(k);
      }
    }
    if OwnProperty(j, p) == Some(v) && (j.JObj? || p != "length") {
      if j.JArr? || j.JStr? {
        var i := ArrayIndex(p).value;
        assert es[i] == (p, v);
      }
    }
  }

  lemma {:induction false} FirstNamed(ms: seq<(string, Json)>, k: nat)
    requires DistinctNames(ms) && k < |ms|
    ensures Get(ms, ms[k].0) == Some(ms[k].1)
    decreases k
  {
    if k > 0 {
      assert ms[1..][k - 1] == ms[k];
      FirstNamed(ms[1..], k - 1);
    }
  }
}

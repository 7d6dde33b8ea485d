/**
 * The schema field extractor of tool/js/sources-map.js: `parseJsonFields`
 * flattens an example JSON document into an ordered list of dotted field
 * paths with their types, and `getFieldTypeBadgeClass` maps a type to its
 * CSS class.
 */
module FieldExtractor {
  import opened Wrappers
  import opened Strings
  import opened JsonValues

  /** One `{name, type}` entry, `name` a dotted path. */
  datatype Field = Field(name: string, kind: string)

  /** `prefix ? `${prefix}.${key}` : key`. */
  function JoinPath(prefix: string, key: string): (r: string)
  {
    if prefix == "" then key else prefix + "." + key
  }

  lemma EntryValue(o: Json, i: nat)
    requires i < |ForInEntries(o)|
    ensures o.JObj? ==> ForInEntries(o)[i] == o.members[i]
    ensures o.JArr? ==> ForInEntries(o)[i].1 == o.items[i]
    ensures o.JStr? ==> !ForInEntries(o)[i].1.JObj?
  {
  }

  /**
   * The fields `extractFields(o, prefix)` has accumulated after its `for…in`
   * loop visited the first `i` entries of `o`.
   */
  function FieldsUpTo(o: Json, i: nat, prefix: string): (r: seq<Field>)
    requires i <= |ForInEntries(o)|
    decreases o, i
  {
    if i == 0 then []
    else
      var e := ForInEntries(o)[i - 1];
      var path := JoinPath(prefix, e.0);
      EntryValue(o, i - 1);
      FieldsUpTo(o, i - 1, prefix) + [Field(path, TypeName(e.1))]
        + (if e.1.JObj? then FieldsUpTo(e.1, |ForInEntries(e.1)|, path) else [])
  }

  /** Everything `extractFields(o, prefix)` returns. */
  function FieldsOf(o: Json, prefix: string): (r: seq<Field>)
  {
    FieldsUpTo(o, |ForInEntries(o)|, prefix)
  }

  /** `parseJsonFields(jsonString)`: no text, or text `JSON.parse` rejects, yields no fields. */
  function SchemaFields(parse: Parser, text: string): (fields: seq<Field>)
    ensures text == "" ==> fields == []
    ensures text != "" && parse(text).None? ==> fields == []
    ensures text != "" && parse(text).Some? ==> fields == FieldsOf(parse(text).value, "")
  {
    if text == "" then []
    else match parse(text)
      case None => []
      case Some(v) => FieldsOf(v, "")
  }

  // ---------------------------------------------------------------------
  // Properties of the flattening
  // ---------------------------------------------------------------------

  lemma {:induction false} UpToIsPrefix(o: Json, i: nat, k: nat, prefix: string)
    requires i <= k <= |ForInEntries(o)|
    ensures |FieldsUpTo(o, i, prefix)| <= |FieldsUpTo(o, k, prefix)|
    ensures FieldsUpTo(o, k, prefix)[..|FieldsUpTo(o, i, prefix)|] == FieldsUpTo(o, i, prefix)
    decreases k
  {
    if i < k {
      UpToIsPrefix(o, i, k - 1, prefix);
      var a := FieldsUpTo(o, i, prefix);
      var b := FieldsUpTo(o, k - 1, prefix);
      var c := FieldsUpTo(o, k, prefix);
      var e := ForInEntries(o)[k - 1];
      var path := JoinPath(prefix, e.0);
      EntryValue(o, k - 1);
      var tail := [Field(path, TypeName(e.1))] + (if e.1.JObj? then FieldsUpTo(e.1, |ForInEntries(e.1)|, path) else []);
      assert c == b + tail;
      PrefixOfAppend(a, b, tail);
    }
  }

  lemma PrefixOfAppend<T>(a: seq<T>, b: seq<T>, tail: seq<T>)
    requires |a| <= |b| && b[..|a|] == a
    ensures (b + tail)[..|a|] == a
  {
    assert (b + tail)[..|a|] == b[..|a|];
  }

  /** The fields contributed by the `j`-th entry of `o`: its own field, then (for an object) its subtree. */
  function EntryBlock(o: Json, j: nat, prefix: string): (r: seq<Field>)
    requires j < |ForInEntries(o)|
  {
    var e := ForInEntries(o)[j];
    var path := JoinPath(prefix, e.0);
    [Field(path, TypeName(e.1))] + (if e.1.JObj? then FieldsOf(e.1, path) else [])
  }

  /** One more visited entry appends that entry's block. */
  lemma UpToStep(o: Json, i: nat, prefix: string)
    requires 0 < i <= |ForInEntries(o)|
    ensures FieldsUpTo(o, i, prefix) == FieldsUpTo(o, i - 1, prefix) + EntryBlock(o, i - 1, prefix)
  {
  }

  /** Where the block of the `j`-th entry starts in the output. */
  function Offset(o: Json, j: nat, prefix: string): (r: nat)
    requires j <= |ForInEntries(o)|
  {
    |FieldsUpTo(o, j, prefix)|
  }

  /**
   * Pre-order: the field of every entry is immediately followed by all of
   * its children's fields, and by nothing else before the next entry.
   */
  lemma PreOrder(o: Json, j: nat, prefix: string)
    requires j < |ForInEntries(o)|
    ensures Offset(o, j + 1, prefix) == Offset(o, j, prefix) + |EntryBlock(o, j, prefix)|
    ensures Offset(o, j + 1, prefix) <= |FieldsOf(o, prefix)|
    ensures FieldsOf(o, prefix)[Offset(o, j, prefix)..Offset(o, j + 1, prefix)] == EntryBlock(o, j, prefix)
  {
    var n := |ForInEntries(o)|;
    UpToIsPrefix(o, j + 1, n, prefix);
    var out := FieldsOf(o, prefix);
    var before := FieldsUpTo(o, j, prefix);
    var upto := FieldsUpTo(o, j + 1, prefix);
    var block := EntryBlock(o, j, prefix);
    UpToStep(o, j + 1, prefix);
    assert out[|before|..|upto|] == out[..|upto|][|before|..];
  }

  /**
   * Every entry's own field sits at its offset. A value that is not an
   * object (an array, `null` or a scalar) yields exactly that one field and
   * is not descended into: an array has type "array", `null` has type
   * "object".
   */
  lemma EntryField(o: Json, j: nat, prefix: string)
    requires j < |ForInEntries(o)|
    ensures Offset(o, j, prefix) < |FieldsOf(o, prefix)|
    ensures FieldsOf(o, prefix)[Offset(o, j, prefix)] == Field(JoinPath(prefix, ForInEntries(o)[j].0), TypeName(ForInEntries(o)[j].1))
    ensures !ForInEntries(o)[j].1.JObj? ==> Offset(o, j + 1, prefix) == Offset(o, j, prefix) + 1
    ensures ForInEntries(o)[j].1.JArr? ==> FieldsOf(o, prefix)[Offset(o, j, prefix)].kind == "array"
    ensures ForInEntries(o)[j].1.JNull? ==> FieldsOf(o, prefix)[Offset(o, j, prefix)].kind == "object"
  {
    PreOrder(o, j, prefix);
    var out := FieldsOf(o, prefix);
    var at := Offset(o, j, prefix);
    assert out[at] == out[at..Offset(o, j + 1, prefix)][0];
  }

  predicate StartsWith(s: string, p: string)
  {
    |p| <= |s| && s[..|p|] == p
  }

  lemma StartsWithTrans(s: string, q: string, p: string)
    requires StartsWith(s, q) && StartsWith(q, p)
    ensures StartsWith(s, p)
  {
    assert s[..|p|] == s[..|q|][..|p|];
  }

  /** Under a non-empty prefix, every emitted path is `prefix + "." + …`. */
  lemma {:induction false} PathsExtendPrefix(o: Json, i: nat, prefix: string)
    requires i <= |ForInEntries(o)|
    requires prefix != ""
    ensures forall f :: f in FieldsUpTo(o, i, prefix) ==> StartsWith(f.name, prefix + ".")
    decreases o, i
  {
    if i > 0 {
      var e := ForInEntries(o)[i - 1];
      var path := JoinPath(prefix, e.0);
      assert path == prefix + "." + e.0;
      assert StartsWith(path, prefix + ".") by { assert path[..|prefix + "."|] == prefix + "."; }
      PathsExtendPrefix(o, i - 1, prefix);
      if e.1.JObj? {
        EntryValue(o, i - 1);
        PathsExtendPrefix(e.1, |ForInEntries(e.1)|, path);
        forall f | f in FieldsOf(e.1, path) ensures StartsWith(f.name, prefix + ".") {
          assert StartsWith(f.name, path + ".");
          assert StartsWith(path + ".", path) by { assert (path + ".")[..|path|] == path; }
          StartsWithTrans(f.name, path + ".", path);
          StartsWithTrans(f.name, path, prefix + ".");
        }
      }
    }
  }

  /** The five type names `extractFields` can produce for a parsed value. */
  predicate ValueKind(kind: string)
  {
    kind == "string" || kind == "number" || kind == "boolean" || kind == "array" || kind == "object"
  }

  /** Every field of `fs` carries one of the kinds `typeof` and the array and null checks produce. */
  predicate KnownKinds(fs: seq<Field>)
  {
    forall k :: 0 <= k < |fs| ==> ValueKind(fs[k].kind)
  }

  /** Every extracted field has one of the five JSON type names. */
  lemma {:induction false} FieldKinds(o: Json, i: nat, prefix: string)
    requires i <= |ForInEntries(o)|
    ensures KnownKinds(FieldsUpTo(o, i, prefix))
    decreases o, i, 1
  {
    if i > 0 {
      UpToStep(o, i, prefix);
      FieldKinds(o, i - 1, prefix);
      BlockKinds(o, i - 1, prefix);
      KindsConcat(FieldsUpTo(o, i - 1, prefix), EntryBlock(o, i - 1, prefix));
    }
  }

  /** So does every field of one entry's block. */
  lemma {:induction false} BlockKinds(o: Json, j: nat, prefix: string)
    requires j < |ForInEntries(o)|
    ensures KnownKinds(EntryBlock(o, j, prefix))
    decreases o, j, 0
  {
    var e := ForInEntries(o)[j];
    var path := JoinPath(prefix, e.0);
    EntryValue(o, j);
    TypeNameKind(e.1);
    if e.1.JObj? {
      FieldKinds(e.1, |ForInEntries(e.1)|, path);
      KindsConcat([Field(path, TypeName(e.1))], FieldsOf(e.1, path));
    } else {
      KindsConcat([Field(path, TypeName(e.1))], []);
    }
  }

  /** Two lists whose kinds are all known concatenate to one whose kinds are all known. */
  lemma KindsConcat(a: seq<Field>, b: seq<Field>)
    requires KnownKinds(a) && KnownKinds(b)
    ensures KnownKinds(a + b)
  {
    forall k | 0 <= k < |a + b| ensures ValueKind((a + b)[k].kind) {
      if k >= |a| { assert (a + b)[k] == b[k - |a|]; }
    }
  }

  lemma TypeNameKind(j: Json)
    ensures ValueKind(TypeName(j))
  {
  }

  /** `getFieldTypeBadgeClass(type)`. */
  function BadgeClass(kind: string): (c: string)
    ensures ValueKind(kind) ==> c == "field-type-" + kind
    ensures !ValueKind(kind) ==> c == "field-type-other"
  {
    match kind
    case "string" => "field-type-string"
    case "number" => "field-type-number"
    case "boolean" => "field-type-boolean"
    case "array" => "field-type-array"
    case "object" => "field-type-object"
    case _ => "field-type-other"
  }

  /** No field extracted from an example ever gets the fallback badge. */
  lemma ExtractedFieldsHaveKnownBadge(parse: Parser, text: string)
    ensures forall f :: f in SchemaFields(parse, text) ==> BadgeClass(f.kind) != "field-type-other"
  {
    if text != "" && parse(text).Some? {
      var v := parse(text).value;
      var fs := FieldsOf(v, "");
      FieldKinds(v, |ForInEntries(v)|, "");
      forall f | f in fs ensures BadgeClass(f.kind) != "field-type-other" {
        var k :| 0 <= k < |fs| && fs[k] == f;
      }
    }
  }

  // ---------------------------------------------------------------------
  // The imperative extractor
  // ---------------------------------------------------------------------

  /** `extractFields(o, prefix)`: a `for…in` loop that pushes and concatenates into `fields`. */
  method ExtractFields(o: Json, prefix: string) returns (fields: seq<Field>)
    ensures fields == FieldsOf(o, prefix)
    decreases o
  {
    var entries := ForInEntries(o);
    fields := [];
    var i := 0;
    while i < |entries|
      invariant 0 <= i <= |entries|
      invariant fields == FieldsUpTo(o, i, prefix)
    {
      var key := entries[i].0;
      var value := entries[i].1;
      var path := JoinPath(prefix, key);
      fields := fields + [Field(path, TypeName(value))];
      if value.JObj? {
        EntryValue(o, i);
        var sub := ExtractFields(value, path);
        fields := fields + sub;
      }
      i := i + 1;
    }
  }

  /** `parseJsonFields(jsonString)`. */
  method ParseJsonFields(parse: Parser, text: string) returns (fields: seq<Field>)
    ensures fields == SchemaFields(parse, text)
  {
    if text == "" {
      return [];
    }
    var parsed := parse(text);
    if parsed.None? {
      return [];
    }
    fields := ExtractFields(parsed.value, "");
  }

  /** The worked example: `{"user":{"id":1,"name":"Bo"}}`. */
  lemma UserExample()
    ensures FieldsOf(JObj([("user", JObj([("id", JNum(1)), ("name", JStr("Bo"))]))]), "")
         == [Field("user", "object"), Field("user.id", "number"), Field("user.name", "string")]
  {
    var inner := JObj([("id", JNum(1)), ("name", JStr("Bo"))]);
    var outer := JObj([("user", inner)]);
    assert JoinPath("user", "id") == "user.id";
    assert JoinPath("user", "name") == "user.name";
    assert ForInEntries(inner)[0] == ("id", JNum(1));
    assert ForInEntries(inner)[1] == ("name", JStr("Bo"));
    assert FieldsUpTo(inner, 1, "user") == [Field("user.id", "number")];
    assert FieldsOf(inner, "user") == [Field("user.id", "number"), Field("user.name", "string")];
    assert ForInEntries(outer)[0] == ("user", inner);
  }
}

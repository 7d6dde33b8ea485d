/**
 * The mapping graph of tool/js/sources-map.js: the `fieldMappings`
 * dictionary from the key "<sourceId>-><targetId>" to the ordered list
 * (bucket) of field mappings between those two sources, the operations that
 * create and delete mappings, and the display order of the connection list.
 */
module MappingGraph {
  import opened Wrappers
  import opened Strings

  /** `{sourceId, field, type}`: one end of a connection as the click handlers collect it. */
  datatype FieldRef = FieldRef(sourceId: int, field: string, kind: string)

  /** One stored mapping. */
  datatype Mapping = Mapping(
    sourceField: string, sourceType: string,
    targetField: string, targetType: string,
    sourceId: int, targetId: int)

  /** One dictionary entry: a key and its bucket. */
  datatype Bucket = Bucket(key: string, mappings: seq<Mapping>)

  /** The dictionary, its entries in insertion order (the order `Object.keys` gives for such keys). */
  type Buckets = seq<Bucket>

  // ---------------------------------------------------------------------
  // Keys
  // ---------------------------------------------------------------------

  /** `${sourceId}->${targetId}`. */
  function KeyOf(sourceId: int, targetId: int): (r: string)
  {
    IntText(sourceId) + "->" + IntText(targetId)
  }

  /** The first element of `key.split('->')`. */
  function SourceHalf(key: string): (r: string)
  {
    Split(key, "->")[0]
  }

  /** The second element of `key.split('->')`, `undefined` when there is none. */
  function TargetHalf(key: string): (r: Option<string>)
  {
    var parts := Split(key, "->");
    if |parts| >= 2 then Some(parts[1]) else None
  }

  lemma NoArrowInText(n: int)
    ensures forall j :: 0 <= j ==> !OccursAt(IntText(n), "->", j)
  {
    var b := IntText(n);
    IntTextShape(n);
    forall j | 0 <= j ensures !OccursAt(b, "->", j) {
      if j + 1 < |b| { NotOccursAt(b, "->", j, 1); }
    }
  }

  /** Splitting a key on "->" gives back exactly the two decimal ids. */
  lemma SplitKey(s: int, t: int)
    ensures Split(KeyOf(s, t), "->") == [IntText(s), IntText(t)]
  {
    var a := IntText(s);
    var b := IntText(t);
    var k := a + "->" + b;
    IntTextShape(s);
    forall j | 0 <= j < |a| ensures !OccursAt(k, "->", j) {
      if j + 1 < |a| {
        assert k[j + 1] == a[j + 1];
        NotOccursAt(k, "->", j, 1);
      } else {
        assert k[j] == a[j];
        NotOccursAt(k, "->", j, 0);
      }
    }
    assert k[|a|..|a| + 2] == "->";
    assert OccursAt(k, "->", |a|);
    var i := IndexOf(k, "->", 0);
    assert i == |a|;
    assert k[..i] == a;
    assert k[i + 2..] == b;
    NoArrowInText(t);
    NoOccurrenceSplit(b, "->");
  }

  /** `Number` of each half of a key is the id it was built from. */
  lemma KeyRoundTrip(s: int, t: int)
    ensures ParseNumber(SourceHalf(KeyOf(s, t))) == Some(s)
    ensures TargetHalf(KeyOf(s, t)) == Some(IntText(t))
    ensures ParseNumber(IntText(t)) == Some(t)
  {
    SplitKey(s, t);
    ParseIntText(s);
    ParseIntText(t);
  }

  lemma KeyInjective(s: int, t: int, s2: int, t2: int)
    requires KeyOf(s, t) == KeyOf(s2, t2)
    ensures s == s2 && t == t2
  {
    KeyRoundTrip(s, t);
    KeyRoundTrip(s2, t2);
  }

  // ---------------------------------------------------------------------
  // Dictionary lookup
  // ---------------------------------------------------------------------

  /** Position of `key` among the entries, or -1. */
  function IndexOfKey(g: Buckets, key: string): (r: int)
    ensures r == -1 <==> forall i :: 0 <= i < |g| ==> g[i].key != key
    ensures 0 <= r ==> r < |g| && g[r].key == key && forall i :: 0 <= i < r ==> g[i].key != key
  {
    FirstIndex(g, BucketKey, key)
  }

  function BucketKey(b: Bucket): (r: string)
  {
    b.key
  }

  /** `fieldMappings[key]`. */
  function Lookup(g: Buckets, key: string): (r: Option<seq<Mapping>>)
  {
    var i := IndexOfKey(g, key);
    if i < 0 then None else Some(g[i].mappings)
  }

  lemma LookupAppend(a: Buckets, b: Buckets, key: string)
    ensures Lookup(a + b, key) == if Lookup(a, key).Some? then Lookup(a, key) else Lookup(b, key)
  {
    var i := IndexOfKey(a, key);
    var j := IndexOfKey(b, key);
    var k := IndexOfKey(a + b, key);
    if i >= 0 {
      assert (a + b)[i] == a[i];
      assert k == i;
    } else if j >= 0 {
      assert (a + b)[|a| + j] == b[j];
      assert k == |a| + j;
    } else {
      forall n | 0 <= n < |a + b| ensures (a + b)[n].key != key {
        if n >= |a| { assert (a + b)[n] == b[n - |a|]; }
      }
    }
  }

  /** Replacing the first entry with a key changes the lookup of that key only. */
  lemma LookupUpdate(g: Buckets, i: nat, b: Bucket)
    requires i < |g| && b.key == g[i].key && IndexOfKey(g, b.key) == i
    ensures Lookup(g[i := b], b.key) == Some(b.mappings)
    ensures forall k :: k != b.key ==> Lookup(g[i := b], k) == Lookup(g, k)
  {
    var r := g[i := b];
    assert forall n :: 0 <= n < |r| ==> r[n].key == g[n].key;
    forall k ensures IndexOfKey(r, k) == IndexOfKey(g, k) {
      IndexOfSameKeys(g, r, k);
    }
    forall k | k != b.key ensures Lookup(r, k) == Lookup(g, k) {
      var j := IndexOfKey(g, k);
      if j >= 0 { assert j != i; }
    }
  }

  /** Two graphs with the same keys in the same places find every key at the same index. */
  lemma IndexOfSameKeys(g: Buckets, r: Buckets, k: string)
    requires |r| == |g| && forall n :: 0 <= n < |g| ==> r[n].key == g[n].key
    ensures IndexOfKey(r, k) == IndexOfKey(g, k)
  {
    var j, j' := IndexOfKey(g, k), IndexOfKey(r, k);
    if j >= 0 {
      assert r[j].key == k;
    }
    if j' >= 0 {
      assert g[j'].key == k;
    }
  }

  /** Deleting the only entry with a key removes that key and changes no other lookup. */
  lemma LookupDelete(g: Buckets, i: nat)
    requires i < |g| && DistinctKeys(g)
    ensures Lookup(g[..i] + g[i + 1..], g[i].key).None?
    ensures forall k :: k != g[i].key ==> Lookup(g[..i] + g[i + 1..], k) == Lookup(g, k)
  {
    var r := g[..i] + g[i + 1..];
    assert forall n :: 0 <= n < |r| ==> r[n] == (if n < i then g[n] else g[n + 1]);
    forall k ensures Lookup(r, k) == if k == g[i].key then None else Lookup(g, k) {
      var j := IndexOfKey(g, k);
      var j' := IndexOfKey(r, k);
      if k == g[i].key {
        assert j' == -1;
      } else if j >= 0 && j < i {
        assert r[j] == g[j];
        assert j' == j;
      } else if j > i {
        assert r[j - 1] == g[j];
        assert j' == j - 1;
      } else {
        assert j' == -1;
      }
    }
  }

  // ---------------------------------------------------------------------
  // The graph invariant
  // ---------------------------------------------------------------------

  predicate SameFields(m: Mapping, sourceField: string, targetField: string)
  {
    m.sourceField == sourceField && m.targetField == targetField
  }

  /** `bucket.some(m => m.sourceField === sf && m.targetField === tf)`. */
  predicate HasPair(ms: seq<Mapping>, sourceField: string, targetField: string)
  {
    exists i :: 0 <= i < |ms| && SameFields(ms[i], sourceField, targetField)
  }

  predicate DistinctKeys(g: Buckets)
  {
    forall i, j :: 0 <= i < j < |g| ==> g[i].key != g[j].key
  }

  /** Every mapping sits under the key built from its own ids. */
  predicate WellKeyed(g: Buckets)
  {
    forall i, m :: 0 <= i < |g| && m in g[i].mappings ==> g[i].key == KeyOf(m.sourceId, m.targetId)
  }

  predicate NoEmptyBuckets(g: Buckets)
  {
    forall i :: 0 <= i < |g| ==> g[i].mappings != []
  }

  /** No two mappings of a bucket connect the same pair of fields. */
  predicate NoDuplicatePairs(ms: seq<Mapping>)
  {
    forall a, b :: 0 <= a < b < |ms| ==> !SameFields(ms[b], ms[a].sourceField, ms[a].targetField)
  }

  /** The invariant every graph operation keeps. */
  predicate Valid(g: Buckets)
  {
    && DistinctKeys(g)
    && WellKeyed(g)
    && NoEmptyBuckets(g)
    && (forall i :: 0 <= i < |g| ==> NoDuplicatePairs(g[i].mappings))
  }

  /** No mapping connects a source to itself. */
  predicate NoSelfMappings(g: Buckets)
  {
    forall i, m :: 0 <= i < |g| && m in g[i].mappings ==> m.sourceId != m.targetId
  }

  // ---------------------------------------------------------------------
  // createFieldMapping
  // ---------------------------------------------------------------------

  function NewMapping(source: FieldRef, target: FieldRef): (r: Mapping)
  {
    Mapping(source.field, source.kind, target.field, target.kind, source.sourceId, target.sourceId)
  }

  /** Whether `createFieldMapping(source, target)` adds a mapping (and then saves). */
  predicate Adds(g: Buckets, source: FieldRef, target: FieldRef)
  {
    var key := KeyOf(source.sourceId, target.sourceId);
    Lookup(g, key).None? || !HasPair(Lookup(g, key).value, source.field, target.field)
  }

  /** `createFieldMapping(source, target)` on the dictionary. */
  function Create(g: Buckets, source: FieldRef, target: FieldRef): (r: Buckets)
    ensures !Adds(g, source, target) ==> r == g
  {
    var key := KeyOf(source.sourceId, target.sourceId);
    var m := NewMapping(source, target);
    var i := IndexOfKey(g, key);
    if i < 0 then g + [Bucket(key, [m])]
    else if HasPair(g[i].mappings, source.field, target.field) then g
    else g[i := Bucket(key, g[i].mappings + [m])]
  }

  /**
   * A new mapping goes at the end of bucket "s->t", which is created (at the
   * end of the dictionary) when absent; every other bucket is unchanged.
   */
  lemma CreateAppends(g: Buckets, source: FieldRef, target: FieldRef)
    requires Adds(g, source, target)
    ensures var key := KeyOf(source.sourceId, target.sourceId);
            var before := if Lookup(g, key).Some? then Lookup(g, key).value else [];
            Lookup(Create(g, source, target), key) == Some(before + [NewMapping(source, target)])
    ensures var key := KeyOf(source.sourceId, target.sourceId);
            forall k :: k != key ==> Lookup(Create(g, source, target), k) == Lookup(g, k)
    ensures var key := KeyOf(source.sourceId, target.sourceId);
            Lookup(g, key).None? ==> Create(g, source, target) == g + [Bucket(key, [NewMapping(source, target)])]
  {
    var key := KeyOf(source.sourceId, target.sourceId);
    var i := IndexOfKey(g, key);
    if i < 0 {
      var tail := [Bucket(key, [NewMapping(source, target)])];
      assert IndexOfKey(tail, key) == 0;
      var single: seq<Mapping> := [NewMapping(source, target)];
      assert [] + single == single;
      assert Lookup(tail, key) == Some(single);
      forall k ensures Lookup(g + tail, k) == if Lookup(g, k).Some? then Lookup(g, k) else Lookup(tail, k) {
        LookupAppend(g, tail, k);
      }
    } else {
      LookupUpdate(g, i, Bucket(key, g[i].mappings + [NewMapping(source, target)]));
    }
  }

  /** Creating the same mapping a second time changes nothing. */
  lemma CreateIdempotent(g: Buckets, source: FieldRef, target: FieldRef)
    ensures Create(Create(g, source, target), source, target) == Create(g, source, target)
  {
    var key := KeyOf(source.sourceId, target.sourceId);
    var r := Create(g, source, target);
    if Adds(g, source, target) {
      CreateAppends(g, source, target);
      var ms := Lookup(r, key).value;
      assert SameFields(ms[|ms| - 1], source.field, target.field);
      assert !Adds(r, source, target);
    }
  }

  function CountPair(ms: seq<Mapping>, sourceField: string, targetField: string): (r: nat)
  {
    if ms == [] then 0
    else CountPair(ms[..|ms| - 1], sourceField, targetField) + (if SameFields(ms[|ms| - 1], sourceField, targetField) then 1 else 0)
  }

  lemma {:induction false} CountPairZero(ms: seq<Mapping>, sourceField: string, targetField: string)
    requires !HasPair(ms, sourceField, targetField)
    ensures CountPair(ms, sourceField, targetField) == 0
  {
    if ms != [] {
      var init := ms[..|ms| - 1];
      assert !HasPair(init, sourceField, targetField) by {
        forall i | 0 <= i < |init| ensures !SameFields(init[i], sourceField, targetField) {
          assert init[i] == ms[i];
        }
      }
      CountPairZero(init, sourceField, targetField);
    }
  }

  lemma {:induction false} NoDuplicatesCountOne(ms: seq<Mapping>, j: nat)
    requires NoDuplicatePairs(ms) && j < |ms|
    ensures CountPair(ms, ms[j].sourceField, ms[j].targetField) == 1
  {
    var sf, tf := ms[j].sourceField, ms[j].targetField;
    var init := ms[..|ms| - 1];
    if j == |ms| - 1 {
      assert !HasPair(init, sf, tf) by {
        forall i | 0 <= i < |init| ensures !SameFields(init[i], sf, tf) {
          assert init[i] == ms[i];
        }
      }
      CountPairZero(init, sf, tf);
    } else {
      assert NoDuplicatePairs(init) by {
        forall a, b | 0 <= a < b < |init| ensures !SameFields(init[b], init[a].sourceField, init[a].targetField) {
          assert init[a] == ms[a] && init[b] == ms[b];
        }
      }
      assert init[j] == ms[j];
      NoDuplicatesCountOne(init, j);
    }
  }

  /** Whatever the graph held, afterwards the bucket stores exactly one mapping with those two fields. */
  lemma CreateStoresOnce(g: Buckets, source: FieldRef, target: FieldRef)
    requires Valid(g)
    ensures var key := KeyOf(source.sourceId, target.sourceId);
            Lookup(Create(g, source, target), key).Some?
            && CountPair(Lookup(Create(g, source, target), key).value, source.field, target.field) == 1
  {
    var key := KeyOf(source.sourceId, target.sourceId);
    var i := IndexOfKey(g, key);
    CreatePreservesValid(g, source, target);
    var r := Create(g, source, target);
    var j := IndexOfKey(r, key);
    if Adds(g, source, target) {
      CreateAppends(g, source, target);
      NoDuplicatesCountOne(r[j].mappings, |r[j].mappings| - 1);
    } else {
      var ms := g[i].mappings;
      var w :| 0 <= w < |ms| && SameFields(ms[w], source.field, target.field);
      NoDuplicatesCountOne(ms, w);
    }
  }

  /** Replacing one bucket's mappings by a well-keyed, non-empty list without duplicates keeps every invariant. */
  lemma ReplaceKeepsValid(g: Buckets, i: nat, ms: seq<Mapping>)
    requires i < |g| && Valid(g)
    requires ms != [] && NoDuplicatePairs(ms)
    requires forall m :: m in ms ==> g[i].key == KeyOf(m.sourceId, m.targetId)
    ensures Valid(g[i := Bucket(g[i].key, ms)])
  {
    var r := g[i := Bucket(g[i].key, ms)];
    assert forall n :: 0 <= n < |r| ==> r[n].key == g[n].key;
  }

  /** Appending a mapping whose field pair is new keeps a list free of duplicates. */
  lemma AppendKeepsNoDuplicates(ms: seq<Mapping>, m: Mapping)
    requires NoDuplicatePairs(ms) && !HasPair(ms, m.sourceField, m.targetField)
    ensures NoDuplicatePairs(ms + [m])
  {
    var all := ms + [m];
    forall a, b | 0 <= a < b < |all| ensures !SameFields(all[b], all[a].sourceField, all[a].targetField) {
      if b == |ms| {
        assert all[a] == ms[a];
        assert !SameFields(ms[a], m.sourceField, m.targetField);
      } else {
        assert all[a] == ms[a] && all[b] == ms[b];
      }
    }
  }

  lemma CreatePreservesValid(g: Buckets, source: FieldRef, target: FieldRef)
    requires Valid(g)
    ensures Valid(Create(g, source, target))
  {
    var key := KeyOf(source.sourceId, target.sourceId);
    var m := NewMapping(source, target);
    var i := IndexOfKey(g, key);
    if i < 0 {
      assert Create(g, source, target) == g + [Bucket(key, [m])];
      AddBucketKeepsValid(g, Bucket(key, [m]));
    } else if !HasPair(g[i].mappings, source.field, target.field) {
      assert Create(g, source, target) == g[i := Bucket(key, g[i].mappings + [m])];
      AppendKeepsNoDuplicates(g[i].mappings, m);
      ReplaceKeepsValid(g, i, g[i].mappings + [m]);
    }
  }

  /** Adding a well-keyed bucket under a new key keeps every invariant. */
  lemma AddBucketKeepsValid(g: Buckets, b: Bucket)
    requires Valid(g) && b.mappings != [] && NoDuplicatePairs(b.mappings)
    requires forall n :: 0 <= n < |g| ==> g[n].key != b.key
    requires forall m :: m in b.mappings ==> b.key == KeyOf(m.sourceId, m.targetId)
    ensures Valid(g + [b])
  {
    var r := g + [b];
    assert forall n :: 0 <= n < |g| ==> r[n] == g[n];
  }


  /** Creating a mapping between two different sources keeps the graph free of self-mappings. */
  lemma CreateKeepsNoSelfMappings(g: Buckets, source: FieldRef, target: FieldRef)
    requires NoSelfMappings(g)
    requires source.sourceId != target.sourceId
    ensures NoSelfMappings(Create(g, source, target))
  {
  }

  // ---------------------------------------------------------------------
  // The self-mapping guard of handleUpdateBulletClick
  // ---------------------------------------------------------------------

  /**
   * Clicking an update bullet: without a selected response field nothing
   * happens; a mapping is only created when the selected field belongs to
   * another source.
   */
  function Connect(g: Buckets, selected: Option<FieldRef>, target: FieldRef): (r: Buckets)
    ensures selected.None? ==> r == g
    ensures selected.Some? && selected.value.sourceId == target.sourceId ==> r == g
    ensures selected.Some? && selected.value.sourceId != target.sourceId ==> r == Create(g, selected.value, target)
  {
    match selected
    case None => g
    case Some(source) => if source.sourceId != target.sourceId then Create(g, source, target) else g
  }

  /** However the user clicks, the graph never acquires a self-mapping. */
  lemma ConnectKeepsNoSelfMappings(g: Buckets, selected: Option<FieldRef>, target: FieldRef)
    requires NoSelfMappings(g)
    ensures NoSelfMappings(Connect(g, selected, target))
  {
    if selected.Some? && selected.value.sourceId != target.sourceId {
      CreateKeepsNoSelfMappings(g, selected.value, target);
    }
  }

  // ---------------------------------------------------------------------
  // removeFieldMapping
  // ---------------------------------------------------------------------

  /** `bucket.filter(m => !(m.sourceField === sf && m.targetField === tf))`. */
  function Without(ms: seq<Mapping>, sourceField: string, targetField: string): (r: seq<Mapping>)
    ensures forall m :: m in r <==> m in ms && !SameFields(m, sourceField, targetField)
    ensures |r| <= |ms|
  {
    if ms == [] then []
    else
      var rest := Without(ms[1..], sourceField, targetField);
      assert forall m :: m in ms <==> m == ms[0] || m in ms[1..];
      if SameFields(ms[0], sourceField, targetField) then rest else [ms[0]] + rest
  }

  /**
   * The filter keeps the surviving mappings in their stored order, which is
   * the order of the generated assignments: filtering a concatenation
   * filters each part.
   */
  lemma {:induction false} WithoutAppend(a: seq<Mapping>, b: seq<Mapping>, sourceField: string, targetField: string)
    ensures Without(a + b, sourceField, targetField) == Without(a, sourceField, targetField) + Without(b, sourceField, targetField)
  {
    if a == [] {
      assert a + b == b;
    } else {
      WithoutAppend(a[1..], b, sourceField, targetField);
      assert (a + b)[0] == a[0] && (a + b)[1..] == a[1..] + b;
    }
  }

  /** A bucket without the pair is kept whole. */
  lemma {:induction false} WithoutKeepsAll(a: seq<Mapping>, sourceField: string, targetField: string)
    requires forall i :: 0 <= i < |a| ==> !SameFields(a[i], sourceField, targetField)
    ensures Without(a, sourceField, targetField) == a
  {
    if a != [] {
      WithoutKeepsAll(a[1..], sourceField, targetField);
      assert a == [a[0]] + a[1..];
    }
  }

  lemma {:induction false} WithoutKeepsNoDuplicates(ms: seq<Mapping>, sourceField: string, targetField: string)
    requires NoDuplicatePairs(ms)
    ensures NoDuplicatePairs(Without(ms, sourceField, targetField))
  {
    if ms != [] {
      var tail := ms[1..];
      assert NoDuplicatePairs(tail) by {
        forall a, b | 0 <= a < b < |tail| ensures !SameFields(tail[b], tail[a].sourceField, tail[a].targetField) {
          assert tail[a] == ms[a + 1] && tail[b] == ms[b + 1];
        }
      }
      WithoutKeepsNoDuplicates(tail, sourceField, targetField);
      var rest := Without(tail, sourceField, targetField);
      if !SameFields(ms[0], sourceField, targetField) {
        var r := [ms[0]] + rest;
        forall a, b | 0 <= a < b < |r| ensures !SameFields(r[b], r[a].sourceField, r[a].targetField) {
          if a == 0 {
            assert r[b] in rest;
            var k :| 0 <= k < |tail| && tail[k] == r[b];
            assert ms[k + 1] == r[b];
          } else {
            assert r[a] == rest[a - 1] && r[b] == rest[b - 1];
          }
        }
      }
    }
  }

  /** `removeFieldMapping(key, sf, tf)` on the dictionary. */
  function Remove(g: Buckets, key: string, sourceField: string, targetField: string): (r: Buckets)
    ensures Lookup(g, key).None? ==> r == g
  {
    var i := IndexOfKey(g, key);
    if i < 0 then g
    else
      var kept := Without(g[i].mappings, sourceField, targetField);
      if kept == [] then g[..i] + g[i + 1..] else g[i := Bucket(key, kept)]
  }

  /**
   * Afterwards no mapping of bucket `key` connects those fields, all its
   * other mappings are kept, the bucket is gone exactly when nothing was
   * left, and every other bucket is unchanged.
   */
  lemma RemoveEffect(g: Buckets, key: string, sourceField: string, targetField: string)
    requires DistinctKeys(g)
    ensures var r := Remove(g, key, sourceField, targetField);
            Lookup(g, key).Some? ==> Lookup(r, key) == if Without(Lookup(g, key).value, sourceField, targetField) == [] then None
                                                     else Some(Without(Lookup(g, key).value, sourceField, targetField))
    ensures forall k :: k != key ==> Lookup(Remove(g, key, sourceField, targetField), k) == Lookup(g, k)
    ensures Lookup(Remove(g, key, sourceField, targetField), key).Some? ==>
              !HasPair(Lookup(Remove(g, key, sourceField, targetField), key).value, sourceField, targetField)
  {
    var i := IndexOfKey(g, key);
    if i >= 0 {
      var kept := Without(g[i].mappings, sourceField, targetField);
      if kept == [] {
        LookupDelete(g, i);
      } else {
        LookupUpdate(g, i, Bucket(key, kept));
      }
    }
  }

  /** Deleting a bucket keeps every invariant. */
  lemma DeleteKeepsValid(g: Buckets, i: nat)
    requires i < |g| && Valid(g)
    ensures Valid(g[..i] + g[i + 1..])
    ensures NoSelfMappings(g) ==> NoSelfMappings(g[..i] + g[i + 1..])
  {
    var r := g[..i] + g[i + 1..];
    assert forall n :: 0 <= n < |r| ==> r[n] == (if n < i then g[n] else g[n + 1]);
  }

  /** Narrowing one bucket to a non-empty subset of its mappings without duplicates keeps every invariant. */
  lemma NarrowKeepsValid(g: Buckets, i: nat, kept: seq<Mapping>)
    requires i < |g| && Valid(g)
    requires kept != [] && NoDuplicatePairs(kept)
    requires forall m :: m in kept ==> m in g[i].mappings
    ensures Valid(g[i := Bucket(g[i].key, kept)])
    ensures NoSelfMappings(g) ==> NoSelfMappings(g[i := Bucket(g[i].key, kept)])
  {
    var r := g[i := Bucket(g[i].key, kept)];
    assert forall n :: 0 <= n < |r| ==> r[n].key == g[n].key;
  }

  lemma RemovePreservesValid(g: Buckets, key: string, sourceField: string, targetField: string)
    requires Valid(g)
    ensures Valid(Remove(g, key, sourceField, targetField))
    ensures NoSelfMappings(g) ==> NoSelfMappings(Remove(g, key, sourceField, targetField))
  {
    var i := IndexOfKey(g, key);
    if i >= 0 {
      var kept := Without(g[i].mappings, sourceField, targetField);
      WithoutKeepsNoDuplicates(g[i].mappings, sourceField, targetField);
      if kept == [] {
        DeleteKeepsValid(g, i);
      } else {
        NarrowKeepsValid(g, i, kept);
      }
    }
  }

  // ---------------------------------------------------------------------
  // removeMappingsForSource
  // ---------------------------------------------------------------------

  /** `sourceIdStr != sourceId && targetIdStr != sourceId`, JavaScript loose inequality of text and number. */
  predicate Unrelated(key: string, id: int)
  {
    && ParseNumber(SourceHalf(key)) != Some(id)
    && (TargetHalf(key).None? || ParseNumber(TargetHalf(key).value) != Some(id))
  }

  /** The dictionary `removeMappingsForSource(id)` builds: the buckets unrelated to `id`, in order. */
  function Cascade(g: Buckets, id: int): (r: Buckets)
    ensures |r| <= |g|
    ensures forall b :: b in r ==> b in g && Unrelated(b.key, id)
    decreases |g|
  {
    if g == [] then []
    else
      var last := g[|g| - 1];
      Cascade(g[..|g| - 1], id) + (if Unrelated(last.key, id) then [last] else [])
  }

  /** A bucket mentions `id` when its key's source or target half is `id`. */
  predicate Mentions(b: Bucket, id: int)
  {
    b.mappings != [] && (b.mappings[0].sourceId == id || b.mappings[0].targetId == id)
  }

  lemma UnrelatedIffNotMentioned(g: Buckets, n: nat, id: int)
    requires Valid(g) && n < |g|
    ensures Unrelated(g[n].key, id) <==> !Mentions(g[n], id)
    ensures !Mentions(g[n], id) <==> forall m :: m in g[n].mappings ==> m.sourceId != id && m.targetId != id
  {
    var m0 := g[n].mappings[0];
    assert m0 in g[n].mappings;
    KeyRoundTrip(m0.sourceId, m0.targetId);
    forall m | m in g[n].mappings ensures m.sourceId == m0.sourceId && m.targetId == m0.targetId {
      KeyInjective(m.sourceId, m.targetId, m0.sourceId, m0.targetId);
    }
  }

  lemma {:induction false} CascadeKeepsDistinctKeys(g: Buckets, id: int)
    ensures DistinctKeys(g) ==> DistinctKeys(Cascade(g, id))
    decreases |g|
  {
    if g != [] {
      var init := g[..|g| - 1];
      CascadeKeepsDistinctKeys(init, id);
      if DistinctKeys(g) {
        assert DistinctKeys(init);
        var c := Cascade(init, id);
        forall b | b in c ensures b.key != g[|g| - 1].key {
          var k :| 0 <= k < |init| && init[k] == b;
        }
      }
    }
  }

  /**
   * Deleting source `id` removes exactly the buckets keyed `id->*` or
   * `*->id`, keeps every other bucket with its contents unchanged, and
   * keeps the graph valid.
   */
  lemma CascadeEffect(g: Buckets, id: int)
    requires Valid(g)
    ensures forall b :: b in Cascade(g, id) ==> b in g && !Mentions(b, id)
    ensures forall b :: b in g && !Mentions(b, id) ==> b in Cascade(g, id)
    ensures forall b, m :: b in Cascade(g, id) && m in b.mappings ==> m.sourceId != id && m.targetId != id
    ensures Valid(Cascade(g, id))
  {
    CascadeFilters(g, id);
    forall b | b in g ensures Unrelated(b.key, id) <==> !Mentions(b, id) {
      var n :| 0 <= n < |g| && g[n] == b;
      UnrelatedIffNotMentioned(g, n, id);
    }
    forall b, m | b in Cascade(g, id) && m in b.mappings ensures m.sourceId != id && m.targetId != id {
      var n :| 0 <= n < |g| && g[n] == b;
      UnrelatedIffNotMentioned(g, n, id);
    }
    CascadeKeepsDistinctKeys(g, id);
    var r := Cascade(g, id);
    forall n | 0 <= n < |r| ensures r[n].mappings != [] && NoDuplicatePairs(r[n].mappings) {
      assert r[n] in g;
    }
    forall n, m | 0 <= n < |r| && m in r[n].mappings ensures r[n].key == KeyOf(m.sourceId, m.targetId) {
      assert r[n] in g;
      var k :| 0 <= k < |g| && g[k] == r[n];
    }
  }

  lemma {:induction false} CascadeFilters(g: Buckets, id: int)
    ensures forall b :: b in g && Unrelated(b.key, id) ==> b in Cascade(g, id)
    decreases |g|
  {
    if g != [] {
      var init := g[..|g| - 1];
      CascadeFilters(init, id);
      forall b | b in g && Unrelated(b.key, id) ensures b in Cascade(g, id) {
        if b != g[|g| - 1] {
          var k :| 0 <= k < |g| && g[k] == b;
          assert init[k] == b;
        }
      }
    }
  }

  lemma CascadeSnoc(c: Buckets, b: Bucket, id: int)
    ensures Cascade(c + [b], id) == Cascade(c, id) + (if Unrelated(b.key, id) then [b] else [])
  {
    var r := c + [b];
    assert r[..|r| - 1] == c && r[|r| - 1] == b;
  }

  /** Deleting the same source a second time removes nothing more. */
  lemma {:induction false} CascadeIdempotent(g: Buckets, id: int)
    ensures Cascade(Cascade(g, id), id) == Cascade(g, id)
    decreases |g|
  {
    if g != [] {
      var init := g[..|g| - 1];
      var last := g[|g| - 1];
      CascadeIdempotent(init, id);
      var c := Cascade(init, id);
      if Unrelated(last.key, id) {
        CascadeSnoc(c, last, id);
        assert Cascade(g, id) == c + [last];
      } else {
        assert Cascade(g, id) == c + [];
        assert c + [] == c;
      }
    }
  }

  /** Deleting the sources `ids` one after another, each with `removeMappingsForSource`. */
  function CascadeEach(g: Buckets, ids: seq<int>): (r: Buckets)
    decreases |ids|
  {
    if ids == [] then g else CascadeEach(Cascade(g, ids[0]), ids[1..])
  }

  /** After deleting several sources, the graph is valid and keeps only original buckets that mention none of them. */
  lemma {:induction false} CascadeEachKeeps(g: Buckets, ids: seq<int>)
    requires Valid(g)
    ensures Valid(CascadeEach(g, ids))
    ensures forall b :: b in CascadeEach(g, ids) ==> b in g && forall id :: id in ids ==> !Mentions(b, id)
    decreases |ids|
  {
    if ids != [] {
      CascadeEffect(g, ids[0]);
      CascadeEachKeeps(Cascade(g, ids[0]), ids[1..]);
      assert forall id :: id in ids ==> id == ids[0] || id in ids[1..];
    }
  }

  /**
   * Deleting, one after another, sources that include the source of every
   * mapping leaves no mapping at all: the same graph as
   * `clearAllFieldMappings()`.
   */
  lemma CascadeAll(g: Buckets, ids: seq<int>)
    requires Valid(g)
    requires forall b, m :: b in g && m in b.mappings ==> m.sourceId in ids
    ensures CascadeEach(g, ids) == []
  {
    CascadeEachKeeps(g, ids);
    forall b | b in g ensures Mentions(b, b.mappings[0].sourceId) && b.mappings[0].sourceId in ids {
      var n :| 0 <= n < |g| && g[n] == b;
      assert b.mappings[0] in b.mappings;
    }
    NothingInIsEmpty(CascadeEach(g, ids));
  }

  lemma NothingInIsEmpty(r: Buckets)
    ensures (forall b :: b !in r) ==> r == []
  {
    if r != [] {
      assert r[0] in r;
    }
  }

  // ---------------------------------------------------------------------
  // The connection list and its stored order (renderConnectionsList)
  // ---------------------------------------------------------------------

  /** One row of the connection list; `id` is `${key}|${sourceField}|${targetField}`. */
  datatype Connection = Connection(id: string, key: string, sourceField: string, targetField: string)

  function ConnectionOf(key: string, m: Mapping): (r: Connection)
  {
    Connection(key + "|" + m.sourceField + "|" + m.targetField, key, m.sourceField, m.targetField)
  }

  function BucketConnections(b: Bucket): (r: seq<Connection>)
    ensures |r| == |b.mappings|
    ensures forall j :: 0 <= j < |r| ==> r[j] == ConnectionOf(b.key, b.mappings[j])
  {
    seq(|b.mappings|, j requires 0 <= j < |b.mappings| => ConnectionOf(b.key, b.mappings[j]))
  }

  /** `allMappings`: one connection per stored mapping, bucket by bucket. */
  function AllConnections(g: Buckets): (r: seq<Connection>)
    decreases |g|
  {
    if g == [] then [] else AllConnections(g[..|g| - 1]) + BucketConnections(g[|g| - 1])
  }

  /** `c` is drawn by some mapping of bucket `b`. */
  predicate FromBucket(b: Bucket, c: Connection)
  {
    exists m :: m in b.mappings && c == ConnectionOf(b.key, m)
  }

  /** `c` is drawn by some mapping of some bucket of `g`. */
  predicate FromGraph(g: Buckets, c: Connection)
  {
    exists n :: 0 <= n < |g| && FromBucket(g[n], c)
  }

  lemma BucketConnectionsMembers(b: Bucket, c: Connection)
    ensures c in BucketConnections(b) <==> FromBucket(b, c)
  {
    var bc := BucketConnections(b);
    if c in bc {
      var j :| 0 <= j < |bc| && bc[j] == c;
      assert b.mappings[j] in b.mappings;
    }
    if FromBucket(b, c) {
      var m :| m in b.mappings && c == ConnectionOf(b.key, m);
      var j :| 0 <= j < |b.mappings| && b.mappings[j] == m;
      assert bc[j] == c;
    }
  }

  /** The connection list draws exactly one line per stored mapping. */
  lemma {:induction false} AllConnectionsMembers(g: Buckets, c: Connection)
    ensures c in AllConnections(g) <==> FromGraph(g, c)
    decreases |g|
  {
    if g != [] {
      var init := g[..|g| - 1];
      var last := g[|g| - 1];
      AllConnectionsMembers(init, c);
      BucketConnectionsMembers(last, c);
      assert c in AllConnections(g) <==> c in AllConnections(init) || c in BucketConnections(last);
      if FromGraph(init, c) {
        var n :| 0 <= n < |init| && FromBucket(init[n], c);
        assert g[n] == init[n];
      }
      if FromGraph(g, c) {
        var n :| 0 <= n < |g| && FromBucket(g[n], c);
        if n < |g| - 1 {
          assert init[n] == g[n];
        }
      }
      if FromBucket(last, c) {
        assert FromBucket(g[|g| - 1], c);
      }
    }
  }


  /** `allMappings.find(m => m.connectionId === id)`, as a position, or -1. */
  function FindConnection(all: seq<Connection>, id: string): (r: int)
    ensures r == -1 <==> forall k :: 0 <= k < |all| ==> all[k].id != id
    ensures 0 <= r ==> r < |all| && all[r].id == id && forall k :: 0 <= k < r ==> all[k].id != id
  {
    FirstIndex(all, ConnectionId, id)
  }

  function ConnectionId(c: Connection): (r: string)
  {
    c.id
  }

  /** The positions that the stored order picks, in stored order. */
  function StoredPicks(all: seq<Connection>, order: seq<string>): (r: seq<int>)
    decreases |order|
  {
    if order == [] then []
    else
      var picks := StoredPicks(all, order[..|order| - 1]);
      var k := FindConnection(all, order[|order| - 1]);
      if k < 0 then picks else picks + [k]
  }

  /** The positions below `n` that the stored order missed, in bucket order. */
  function NewPicks(picked: seq<int>, n: nat): (r: seq<int>)
    ensures forall j :: 0 <= j < |r| ==> 0 <= r[j] < n
  {
    if n == 0 then [] else NewPicks(picked, n - 1) + (if n - 1 in picked then [] else [n - 1])
  }

  /** The new picks are exactly the unpicked positions below `n`, in increasing order. */
  lemma {:induction false} NewPicksShape(picked: seq<int>, n: nat)
    ensures forall j :: 0 <= j < |NewPicks(picked, n)| ==> NewPicks(picked, n)[j] !in picked
    ensures forall k :: 0 <= k < n && k !in picked ==> k in NewPicks(picked, n)
    ensures forall i, j :: 0 <= i < j < |NewPicks(picked, n)| ==> NewPicks(picked, n)[i] < NewPicks(picked, n)[j]
  {
    if n > 0 {
      NewPicksShape(picked, n - 1);
    }
  }

  lemma {:induction false} NewPicksNone(picked: seq<int>, n: nat)
    requires forall k :: 0 <= k < n ==> k in picked
    ensures NewPicks(picked, n) == []
  {
    if n > 0 {
      NewPicksNone(picked, n - 1);
    }
  }

  /** `sortedMappings`, as positions into `allMappings`. */
  function SortedPicks(all: seq<Connection>, order: seq<string>): (r: seq<int>)
  {
    StoredPicks(all, order) + NewPicks(StoredPicks(all, order), |all|)
  }

  function IdsAt(all: seq<Connection>, picks: seq<int>): (r: seq<string>)
    requires forall j :: 0 <= j < |picks| ==> 0 <= picks[j] < |all|
    ensures |r| == |picks| && forall j :: 0 <= j < |r| ==> r[j] == all[picks[j]].id
  {
    seq(|picks|, j requires 0 <= j < |picks| => all[picks[j]].id)
  }

  lemma IdsAtSnoc(all: seq<Connection>, picks: seq<int>, k: int)
    requires forall j :: 0 <= j < |picks| ==> 0 <= picks[j] < |all|
    requires 0 <= k < |all|
    ensures IdsAt(all, picks + [k]) == IdsAt(all, picks) + [all[k].id]
  {
  }

  function Arrange(all: seq<Connection>, picks: seq<int>): (r: seq<Connection>)
    requires forall j :: 0 <= j < |picks| ==> 0 <= picks[j] < |all|
    ensures |r| == |picks| && forall j :: 0 <= j < |r| ==> r[j] == all[picks[j]]
  {
    seq(|picks|, j requires 0 <= j < |picks| => all[picks[j]])
  }

  /** One step of the merge loop: index k is appended exactly when no earlier pick holds it. */
  lemma NewPicksStep(stored: seq<int>, added: seq<int>, k: nat, isNew: bool)
    requires added == NewPicks(stored, k)
    requires isNew == (k !in stored + added)
    ensures NewPicks(stored, k + 1) == added + (if isNew then [k] else [])
  {
    assert k !in added;
  }

  /** `connectionsOrder` after a render: the ids of the new connections appended, nothing when the list is empty. */
  function MergedOrder(all: seq<Connection>, order: seq<string>): (r: seq<string>)
  {
    if all == [] then order else order + IdsAt(all, NewPicks(StoredPicks(all, order), |all|))
  }

  /** The ids of the stored order that name a connection, in stored order. */
  function KnownIds(all: seq<Connection>, order: seq<string>): (r: seq<string>)
    decreases |order|
  {
    if order == [] then []
    else
      var known := KnownIds(all, order[..|order| - 1]);
      if FindConnection(all, order[|order| - 1]) < 0 then known else known + [order[|order| - 1]]
  }

  /**
   * The rendered list: the stored order, less the ids no connection has,
   * comes first; every other connection follows in bucket order; every
   * connection is shown. With distinct connection ids, a connection comes
   * first exactly when the stored order names it.
   */
  lemma MergeShape(all: seq<Connection>, order: seq<string>)
    ensures forall j :: 0 <= j < |StoredPicks(all, order)| ==> 0 <= StoredPicks(all, order)[j] < |all|
    ensures var picks := SortedPicks(all, order);
            var stored := StoredPicks(all, order);
            && picks[..|stored|] == stored
            && IdsAt(all, stored) == KnownIds(all, order)
            && (forall j :: 0 <= j < |picks| ==> 0 <= picks[j] < |all|)
            && (forall k :: 0 <= k < |all| ==> k in picks)
            && (forall i, j :: |stored| <= i < j < |picks| ==> picks[i] < picks[j])
    ensures DistinctIds(all) ==> forall k :: 0 <= k < |all| ==> (k in StoredPicks(all, order) <==> all[k].id in order)
  {
    StoredPicksNamed(all, order);
    StoredIdsKnown(all, order);
    NewPicksShape(StoredPicks(all, order), |all|);
    if DistinctIds(all) {
      StoredPicksComplete(all, order);
      forall k | 0 <= k < |all| && k in StoredPicks(all, order) ensures all[k].id in order {
        var j :| 0 <= j < |StoredPicks(all, order)| && StoredPicks(all, order)[j] == k;
      }
    }
  }

  /** The stored picks are the connections of the known ids, in stored order. */
  lemma {:induction false} StoredIdsKnown(all: seq<Connection>, order: seq<string>)
    ensures forall j :: 0 <= j < |StoredPicks(all, order)| ==> 0 <= StoredPicks(all, order)[j] < |all|
    ensures IdsAt(all, StoredPicks(all, order)) == KnownIds(all, order)
    decreases |order|
  {
    StoredPicksNamed(all, order);
    if order != [] {
      var init := order[..|order| - 1];
      StoredIdsKnown(all, init);
      var k := FindConnection(all, order[|order| - 1]);
      if k >= 0 {
        IdsAtSnoc(all, StoredPicks(all, init), k);
      }
    }
  }

  /** With distinct connection ids, every connection the stored order names is picked. */
  lemma {:induction false} StoredPicksComplete(all: seq<Connection>, order: seq<string>)
    requires DistinctIds(all)
    ensures forall k :: 0 <= k < |all| && all[k].id in order ==> k in StoredPicks(all, order)
    decreases |order|
  {
    if order != [] {
      var init := order[..|order| - 1];
      var id := order[|order| - 1];
      StoredPicksComplete(all, init);
      assert order == init + [id];
      StoredPicksSnoc(all, init, id);
      forall k | 0 <= k < |all| && all[k].id in order ensures k in StoredPicks(all, order) {
        if all[k].id == id {
          FindDistinct(all, k);
        } else {
          assert all[k].id in init;
        }
      }
    }
  }

  /** With distinct connection ids, a stored order without repeats stays without repeats after a render. */
  lemma MergedOrderNoRepeats(all: seq<Connection>, order: seq<string>)
    requires DistinctIds(all) && NoRepeats(order)
    ensures NoRepeats(MergedOrder(all, order))
  {
    if all != [] {
      var stored := StoredPicks(all, order);
      var added := NewPicks(stored, |all|);
      NewPicksShape(stored, |all|);
      StoredPicksComplete(all, order);
      var ids := IdsAt(all, added);
      var merged := order + ids;
      forall i, j | 0 <= i < j < |merged| ensures merged[i] != merged[j] {
        if j >= |order| {
          assert merged[j] == all[added[j - |order|]].id;
          if i < |order| {
            assert merged[i] in order;
            assert added[j - |order|] !in stored;
          } else {
            assert merged[i] == all[added[i - |order|]].id;
            assert added[i - |order|] < added[j - |order|];
          }
        }
      }
    }
  }

  /** Each stored pick is a real connection whose id the stored order names. */
  lemma {:induction false} StoredPicksNamed(all: seq<Connection>, order: seq<string>)
    ensures forall j :: 0 <= j < |StoredPicks(all, order)| ==> 0 <= StoredPicks(all, order)[j] < |all|
    ensures forall j :: 0 <= j < |StoredPicks(all, order)| ==> all[StoredPicks(all, order)[j]].id in order
    decreases |order|
  {
    if order != [] {
      var init := order[..|order| - 1];
      StoredPicksNamed(all, init);
      assert forall x :: x in init ==> x in order;
    }
  }

  predicate DistinctIds(all: seq<Connection>)
  {
    forall i, j :: 0 <= i < j < |all| ==> all[i].id != all[j].id
  }

  predicate NoRepeats<T(==)>(s: seq<T>)
  {
    forall i, j :: 0 <= i < j < |s| ==> s[i] != s[j]
  }

  lemma FindDistinct(all: seq<Connection>, k: nat)
    requires DistinctIds(all) && k < |all|
    ensures FindConnection(all, all[k].id) == k
  {
  }

  /**
   * When connection ids are distinct and the stored order repeats no id,
   * the rendered list is a permutation of the connections: every one
   * appears, none twice.
   */
  lemma MergeIsPermutation(all: seq<Connection>, order: seq<string>)
    requires DistinctIds(all) && NoRepeats(order)
    ensures NoRepeats(SortedPicks(all, order)) && |SortedPicks(all, order)| == |all|
  {
    var stored := StoredPicks(all, order);
    StoredPicksNamed(all, order);
    StoredPicksNoRepeats(all, order);
    var picks := SortedPicks(all, order);
    var added := NewPicks(stored, |all|);
    NewPicksShape(stored, |all|);
    forall i, j | 0 <= i < j < |picks| ensures picks[i] != picks[j] {
      if j >= |stored| && i < |stored| {
        assert picks[j] == added[j - |stored|];
        assert picks[i] in stored;
      } else if i >= |stored| {
        assert picks[i] == added[i - |stored|] && picks[j] == added[j - |stored|];
      }
    }
    PermutationSize(picks, |all|);
  }

  lemma {:induction false} StoredPicksNoRepeats(all: seq<Connection>, order: seq<string>)
    requires DistinctIds(all) && NoRepeats(order)
    ensures NoRepeats(StoredPicks(all, order))
    decreases |order|
  {
    StoredPicksNamed(all, order);
    if order != [] {
      var init := order[..|order| - 1];
      var id := order[|order| - 1];
      assert NoRepeats(init);
      StoredPicksNoRepeats(all, init);
      StoredPicksNamed(all, init);
      var p := StoredPicks(all, init);
      var k := FindConnection(all, id);
      if k >= 0 {
        forall j | 0 <= j < |p| ensures p[j] != k {
          assert all[p[j]].id in init;
        }
      }
    }
  }

  /** The positions `0 .. n-1`. */
  function Below(n: nat): (r: set<int>)
    ensures forall k :: k in r <==> 0 <= k < n
    ensures |r| == n
  {
    if n == 0 then {} else Below(n - 1) + {n - 1}
  }

  /** A repetition-free sequence of positions below `n` that covers them all has length `n`. */
  lemma PermutationSize(picks: seq<int>, n: nat)
    requires NoRepeats(picks)
    requires forall j :: 0 <= j < |picks| ==> 0 <= picks[j] < n
    requires forall k :: 0 <= k < n ==> k in picks
    ensures |picks| == n
  {
    var s := set j | 0 <= j < |picks| :: picks[j];
    forall k | 0 <= k < n ensures k in s {
      assert k in picks;
      var j :| 0 <= j < |picks| && picks[j] == k;
    }
    assert s == Below(n);
    DistinctCard(picks);
  }

  lemma {:induction false} DistinctCard(picks: seq<int>)
    requires NoRepeats(picks)
    ensures |set j | 0 <= j < |picks| :: picks[j]| == |picks|
  {
    if picks != [] {
      var init := picks[..|picks| - 1];
      assert NoRepeats(init);
      DistinctCard(init);
      var s := set j | 0 <= j < |init| :: init[j];
      assert (set j | 0 <= j < |picks| :: picks[j]) == s + {picks[|picks| - 1]};
      assert picks[|picks| - 1] !in s;
    }
  }

  /** After a render, every shown connection's id is in the stored order. */
  lemma MergedOrderNamesAll(all: seq<Connection>, order: seq<string>)
    ensures forall k :: 0 <= k < |all| ==> all[k].id in MergedOrder(all, order)
  {
    var stored := StoredPicks(all, order);
    var added := NewPicks(stored, |all|);
    StoredPicksNamed(all, order);
    NewPicksShape(stored, |all|);
    forall k | 0 <= k < |all| ensures all[k].id in MergedOrder(all, order) {
      if k in stored {
        var j :| 0 <= j < |stored| && stored[j] == k;
      } else {
        var j :| 0 <= j < |added| && added[j] == k;
        assert MergedOrder(all, order)[|order| + j] == all[k].id;
      }
    }
  }

  /**
   * With distinct connection ids, rendering a second time shows the same
   * list and appends nothing more to the stored order.
   */
  lemma MergeStable(all: seq<Connection>, order: seq<string>)
    requires DistinctIds(all)
    ensures SortedPicks(all, MergedOrder(all, order)) == SortedPicks(all, order)
    ensures MergedOrder(all, MergedOrder(all, order)) == MergedOrder(all, order)
  {
    if all != [] {
      var stored := StoredPicks(all, order);
      var added := NewPicks(stored, |all|);
      NewPicksShape(stored, |all|);
      var ids := IdsAt(all, added);
      assert Locates(all, ids, added);
      StoredPicksExtend(all, order, ids, added);
      var stored2 := StoredPicks(all, order + ids);
      assert stored2 == stored + added;
      forall k | 0 <= k < |all| ensures k in stored2 {
        if k !in stored { assert k in added; }
      }
      NewPicksNone(stored2, |all|);
      assert SortedPicks(all, order + ids) == stored2 + [];
    }
  }

  lemma StoredPicksSnoc(all: seq<Connection>, order: seq<string>, id: string)
    ensures var k := FindConnection(all, id);
            StoredPicks(all, order + [id]) == StoredPicks(all, order) + (if k < 0 then [] else [k])
  {
    var o := order + [id];
    assert o[..|o| - 1] == order && o[|o| - 1] == id;
  }

  /** `ids[j]` is the id of connection `positions[j]`, for every `j`. */
  predicate Locates(all: seq<Connection>, ids: seq<string>, positions: seq<int>)
  {
    |ids| == |positions| && forall j :: 0 <= j < |ids| ==> 0 <= positions[j] < |all| && ids[j] == all[positions[j]].id
  }

  lemma LocatesInit(all: seq<Connection>, ids: seq<string>, positions: seq<int>)
    requires Locates(all, ids, positions) && ids != []
    ensures Locates(all, ids[..|ids| - 1], positions[..|ids| - 1])
  {
    var n := |ids| - 1;
    forall j | 0 <= j < n ensures 0 <= positions[..n][j] < |all| && ids[..n][j] == all[positions[..n][j]].id {
      assert ids[..n][j] == ids[j] && positions[..n][j] == positions[j];
    }
  }

  lemma SnocAssoc<T>(a: seq<T>, b: seq<T>, x: T)
    ensures (a + b) + [x] == a + (b + [x])
  {
  }

  lemma AppendInit<T>(a: seq<T>, b: seq<T>)
    requires b != []
    ensures a + b == (a + b[..|b| - 1]) + [b[|b| - 1]]
  {
    assert b == b[..|b| - 1] + [b[|b| - 1]];
  }

  lemma StoredPicksFound(all: seq<Connection>, order: seq<string>, p: nat)
    requires DistinctIds(all) && p < |all|
    ensures StoredPicks(all, order + [all[p].id]) == StoredPicks(all, order) + [p]
  {
    StoredPicksSnoc(all, order, all[p].id);
    FindDistinct(all, p);
  }

  lemma {:induction false} StoredPicksExtend(all: seq<Connection>, order: seq<string>, ids: seq<string>, positions: seq<int>)
    requires DistinctIds(all) && Locates(all, ids, positions)
    ensures StoredPicks(all, order + ids) == StoredPicks(all, order) + positions
    decreases |ids|
  {
    if ids == [] {
      assert order + ids == order;
    } else {
      var n := |ids| - 1;
      var ids', positions' := ids[..n], positions[..n];
      LocatesInit(all, ids, positions);
      StoredPicksExtend(all, order, ids', positions');
      var front := order + ids';
      AppendInit(order, ids);
      assert ids[n] == all[positions[n]].id;
      StoredPicksFound(all, front, positions[n]);
      var base := StoredPicks(all, order);
      AppendInit(base, positions);
      assert StoredPicks(all, order + ids) == StoredPicks(all, front) + [positions[n]];
    }
  }

  /** With no connections the stored order picks nothing. */
  lemma {:induction false} StoredPicksNone(order: seq<string>)
    ensures StoredPicks([], order) == []
    decreases |order|
  {
    if order != [] {
      StoredPicksNone(order[..|order| - 1]);
    }
  }

  /** One step of the loop of `removeMappingsForSource`. */
  lemma CascadeStep(g: Buckets, i: nat, id: int, keep: bool)
    requires i < |g| && keep == Unrelated(g[i].key, id)
    ensures Cascade(g[..i + 1], id) == Cascade(g[..i], id) + (if keep then [g[i]] else [])
  {
    assert g[..i + 1] == g[..i] + [g[i]];
    CascadeSnoc(g[..i], g[i], id);
  }

  /** The loop of `removeMappingsForSource`: copy every bucket whose key does not mention `id`. */
  method KeepUnrelated(mappings: Buckets, id: int) returns (updated: Buckets)
    ensures updated == Cascade(mappings, id)
  {
    updated := [];
    var i := 0;
    while i < |mappings|
      invariant 0 <= i <= |mappings|
      invariant updated == Cascade(mappings[..i], id)
    {
      var b := mappings[i];
      var keep := Unrelated(b.key, id);
      CascadeStep(mappings, i, id, keep);
      if keep {
        updated := updated + [b];
      }
      i := i + 1;
    }
    assert mappings[..i] == mappings;
  }

  /** The nested `forEach` that builds `allMappings`. */
  method CollectConnections(g: Buckets) returns (all: seq<Connection>)
    ensures all == AllConnections(g)
  {
    all := [];
    var i := 0;
    while i < |g|
      invariant 0 <= i <= |g|
      invariant all == AllConnections(g[..i])
    {
      var b := g[i];
      var j := 0;
      while j < |b.mappings|
        invariant 0 <= j <= |b.mappings|
        invariant all == AllConnections(g[..i]) + BucketConnections(b)[..j]
      {
        assert BucketConnections(b)[..j + 1] == BucketConnections(b)[..j] + [ConnectionOf(b.key, b.mappings[j])];
        all := all + [ConnectionOf(b.key, b.mappings[j])];
        j := j + 1;
      }
      assert g[..i + 1][..i] == g[..i];
      assert BucketConnections(b)[..j] == BucketConnections(b);
      i := i + 1;
    }
    assert g[..i] == g;
  }

  /** The `connectionsOrder.forEach` that collects the connections the stored order names. */
  method PickStored(all: seq<Connection>, order: seq<string>) returns (picks: seq<int>)
    ensures picks == StoredPicks(all, order)
  {
    picks := [];
    var n := 0;
    while n < |order|
      invariant 0 <= n <= |order|
      invariant picks == StoredPicks(all, order[..n])
    {
      assert order[..n + 1][..n] == order[..n];
      var k := FindConnection(all, order[n]);
      if k >= 0 {
        picks := picks + [k];
      }
      n := n + 1;
    }
    assert order[..n] == order;
  }

  /**
   * The two loops of the order merge, which run once the list is known to
   * be non-empty: the connections
   * the stored order names, then every other connection, whose id is
   * appended to the order.
   */
  method MergeOrder(all: seq<Connection>, order: seq<string>) returns (picks: seq<int>, newOrder: seq<string>)
    requires all != []
    ensures picks == SortedPicks(all, order)
    ensures newOrder == MergedOrder(all, order)
  {
    picks := PickStored(all, order);
    StoredPicksNamed(all, order);
    ghost var stored := picks;
    ghost var added: seq<int> := [];
    newOrder := order;
    var k := 0;
    while k < |all|
      invariant 0 <= k <= |all|
      invariant added == NewPicks(stored, k)
      invariant picks == stored + added
      invariant forall j :: 0 <= j < |added| ==> 0 <= added[j] < k
      invariant newOrder == order + IdsAt(all, added)
    {
      var isNew := k !in picks;
      NewPicksStep(stored, added, k, isNew);
      if isNew {
        IdsAtSnoc(all, added, k);
        SnocAssoc(stored, added, k);
        SnocAssoc(order, IdsAt(all, added), all[k].id);
        picks := picks + [k];
        newOrder := newOrder + [all[k].id];
        added := added + [k];
      }
      k := k + 1;
    }
  }

  // ---------------------------------------------------------------------
  // The state of sources-map.js
  // ---------------------------------------------------------------------

  /**
   * The module state: the `fieldMappings` dictionary and `connectionsOrder`.
   * `saved` and `savedOrder` are what localStorage last received.
   */
  class Graph {
    var buckets: Buckets
    var connectionsOrder: seq<string>
    ghost var saved: Buckets
    ghost var savedOrder: seq<string>

    constructor ()
      ensures buckets == [] && connectionsOrder == [] && saved == [] && savedOrder == []
    {
      buckets := [];
      connectionsOrder := [];
      saved := [];
      savedOrder := [];
    }

    /** `createFieldMapping`: the dictionary becomes `Create(old)`, and it is saved when something was added. */
    method CreateFieldMapping(source: FieldRef, target: FieldRef)
      modifies this`buckets, this`saved
      ensures buckets == Create(old(buckets), source, target)
      ensures saved == if Adds(old(buckets), source, target) then buckets else old(saved)
    {
      var key := KeyOf(source.sourceId, target.sourceId);
      var i := IndexOfKey(buckets, key);
      if i < 0 {
        buckets := buckets + [Bucket(key, [])];
        i := |buckets| - 1;
        assert [] + [NewMapping(source, target)] == [NewMapping(source, target)];
      }
      var present := HasPair(buckets[i].mappings, source.field, target.field);
      if !present {
        buckets := buckets[i := Bucket(key, buckets[i].mappings + [NewMapping(source, target)])];
        saved := buckets;
      }
    }

    /** `handleUpdateBulletClick`: returns the selection that remains afterwards. */
    method HandleUpdateBulletClick(selected: Option<FieldRef>, target: FieldRef) returns (remaining: Option<FieldRef>)
      modifies this`buckets, this`saved
      ensures buckets == Connect(old(buckets), selected, target)
      ensures remaining == if selected.Some? && selected.value.sourceId != target.sourceId then None else selected
      ensures saved == if selected.Some? && selected.value.sourceId != target.sourceId && Adds(old(buckets), selected.value, target)
                       then buckets else old(saved)
    {
      if selected.None? {
        return selected;
      }
      if selected.value.sourceId != target.sourceId {
        CreateFieldMapping(selected.value, target);
        remaining := None;
      } else {
        remaining := selected;
      }
    }

    /** `removeFieldMapping`: the dictionary becomes `Remove(old)`; saved unless the key was absent. */
    method RemoveFieldMapping(key: string, sourceField: string, targetField: string)
      modifies this`buckets, this`saved
      ensures buckets == Remove(old(buckets), key, sourceField, targetField)
      ensures saved == if Lookup(old(buckets), key).Some? then buckets else old(saved)
    {
      var i := IndexOfKey(buckets, key);
      if i >= 0 {
        var kept := Without(buckets[i].mappings, sourceField, targetField);
        if kept == [] {
          buckets := buckets[..i] + buckets[i + 1..];
        } else {
          buckets := buckets[i := Bucket(key, kept)];
        }
        saved := buckets;
      }
    }

    /** `removeMappingsForSource`: a new dictionary of the unrelated buckets replaces the old one, and is saved. */
    method RemoveMappingsForSource(id: int)
      modifies this`buckets, this`saved
      ensures buckets == Cascade(old(buckets), id) && saved == buckets
    {
      var updated := KeepUnrelated(buckets, id);
      buckets := updated;
      saved := buckets;
    }

    /** `clearAllFieldMappings`. */
    method ClearAllFieldMappings()
      modifies this`buckets, this`saved
      ensures buckets == [] && saved == []
    {
      buckets := [];
      saved := [];
    }

    /**
     * `renderConnectionsList`: returns the rows in display order and extends
     * `connectionsOrder`, which it saves unless the list is empty.
     */
    method RenderConnectionsList() returns (shown: seq<Connection>)
      modifies this`connectionsOrder, this`savedOrder
      ensures var all := AllConnections(buckets);
              && (forall j :: 0 <= j < |SortedPicks(all, old(connectionsOrder))| ==> 0 <= SortedPicks(all, old(connectionsOrder))[j] < |all|)
              && shown == Arrange(all, SortedPicks(all, old(connectionsOrder)))
              && connectionsOrder == MergedOrder(all, old(connectionsOrder))
              && savedOrder == if all == [] then old(savedOrder) else connectionsOrder
    {
      var all := CollectConnections(buckets);
      if all == [] {
        StoredPicksNone(connectionsOrder);
        return [];
      }
      MergeShape(all, connectionsOrder);
      var picks, order := MergeOrder(all, connectionsOrder);
      connectionsOrder := order;
      shown := Arrange(all, picks);
      savedOrder := connectionsOrder;
    }
  }
}

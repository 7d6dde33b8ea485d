/**
 * The source registry of tool/sources-list.js: the ordered `sources` array
 * and the operations that add, find, merge-update and remove a source.
 * Removing a source cascades into the mapping graph.
 */
module SourceRegistry {
  import opened Wrappers
  import opened MappingGraph

  /**
   * A configured API source. Every field is the text the form stored;
   * the empty string stands for a field that is absent or empty, both of
   * which JavaScript treats as false. The id 0 stands for a missing id.
   */
  datatype Source = Source(
    id: int, name: string, kind: string,
    receiveEndpoint: string, receiveMethod: string, receivePayload: string,
    receiveHeaders: string, receiveResponseExample: string,
    updateEndpoint: string, updateMethod: string, updateHeaders: string, updatePayload: string)

  /** The `updatedData` object of `updateSource`: the fields it carries. */
  datatype SourcePatch = SourcePatch(
    id: Option<int>, name: Option<string>, kind: Option<string>,
    receiveEndpoint: Option<string>, receiveMethod: Option<string>, receivePayload: Option<string>,
    receiveHeaders: Option<string>, receiveResponseExample: Option<string>,
    updateEndpoint: Option<string>, updateMethod: Option<string>, updateHeaders: Option<string>,
    updatePayload: Option<string>)

  /** `sources.findIndex(source => source.id === id)`. */
  function IndexOfId(sources: seq<Source>, id: int): (r: int)
    ensures r == -1 <==> forall i :: 0 <= i < |sources| ==> sources[i].id != id
    ensures 0 <= r ==> r < |sources| && sources[r].id == id && forall i :: 0 <= i < r ==> sources[i].id != id
  {
    FirstIndex(sources, SourceId, id)
  }

  function SourceId(s: Source): (r: int)
  {
    s.id
  }

  /** `getSource(id)`: the first source whose id is strictly equal, or null. */
  function FindSource(sources: seq<Source>, id: int): (r: Option<Source>)
    ensures r.None? <==> forall i :: 0 <= i < |sources| ==> sources[i].id != id
    ensures r.Some? ==> r.value.id == id
    ensures r.Some? ==> exists i :: 0 <= i < |sources| && sources[i] == r.value && forall j :: 0 <= j < i ==> sources[j].id != id
  {
    var i := IndexOfId(sources, id);
    if i < 0 then None else Some(sources[i])
  }

  /** `{ ...source, ...patch }`. */
  function Merge(s: Source, p: SourcePatch): (r: Source)
  {
    Source(
      p.id.GetOr(s.id), p.name.GetOr(s.name), p.kind.GetOr(s.kind),
      p.receiveEndpoint.GetOr(s.receiveEndpoint), p.receiveMethod.GetOr(s.receiveMethod),
      p.receivePayload.GetOr(s.receivePayload), p.receiveHeaders.GetOr(s.receiveHeaders),
      p.receiveResponseExample.GetOr(s.receiveResponseExample),
      p.updateEndpoint.GetOr(s.updateEndpoint), p.updateMethod.GetOr(s.updateMethod),
      p.updateHeaders.GetOr(s.updateHeaders), p.updatePayload.GetOr(s.updatePayload))
  }

  const EmptyPatch := SourcePatch(None, None, None, None, None, None, None, None, None, None, None, None)

  /** The patch that carries every field of `s`. */
  function FullPatch(s: Source): (r: SourcePatch)
  {
    SourcePatch(
      Some(s.id), Some(s.name), Some(s.kind), Some(s.receiveEndpoint), Some(s.receiveMethod),
      Some(s.receivePayload), Some(s.receiveHeaders), Some(s.receiveResponseExample),
      Some(s.updateEndpoint), Some(s.updateMethod), Some(s.updateHeaders), Some(s.updatePayload))
  }

  /** The twelve fields of a source, to speak of them one at a time. */
  datatype SourceField =
    | IdField | NameField | KindField
    | ReceiveEndpointField | ReceiveMethodField | ReceivePayloadField
    | ReceiveHeadersField | ReceiveResponseExampleField
    | UpdateEndpointField | UpdateMethodField | UpdateHeadersField | UpdatePayloadField

  datatype FieldValue = Number(n: int) | Text(t: string)

  /** `source[field]`. */
  function FieldOf(s: Source, f: SourceField): (r: FieldValue)
  {
    match f
    case IdField => Number(s.id)
    case NameField => Text(s.name)
    case KindField => Text(s.kind)
    case ReceiveEndpointField => Text(s.receiveEndpoint)
    case ReceiveMethodField => Text(s.receiveMethod)
    case ReceivePayloadField => Text(s.receivePayload)
    case ReceiveHeadersField => Text(s.receiveHeaders)
    case ReceiveResponseExampleField => Text(s.receiveResponseExample)
    case UpdateEndpointField => Text(s.updateEndpoint)
    case UpdateMethodField => Text(s.updateMethod)
    case UpdateHeadersField => Text(s.updateHeaders)
    case UpdatePayloadField => Text(s.updatePayload)
  }

  /** `updatedData[field]`, when the patch carries that field. */
  function PatchFieldOf(p: SourcePatch, f: SourceField): (r: Option<FieldValue>)
  {
    match f
    case IdField => if p.id.Some? then Some(Number(p.id.value)) else None
    case NameField => if p.name.Some? then Some(Text(p.name.value)) else None
    case KindField => if p.kind.Some? then Some(Text(p.kind.value)) else None
    case ReceiveEndpointField => if p.receiveEndpoint.Some? then Some(Text(p.receiveEndpoint.value)) else None
    case ReceiveMethodField => if p.receiveMethod.Some? then Some(Text(p.receiveMethod.value)) else None
    case ReceivePayloadField => if p.receivePayload.Some? then Some(Text(p.receivePayload.value)) else None
    case ReceiveHeadersField => if p.receiveHeaders.Some? then Some(Text(p.receiveHeaders.value)) else None
    case ReceiveResponseExampleField =>
      if p.receiveResponseExample.Some? then Some(Text(p.receiveResponseExample.value)) else None
    case UpdateEndpointField => if p.updateEndpoint.Some? then Some(Text(p.updateEndpoint.value)) else None
    case UpdateMethodField => if p.updateMethod.Some? then Some(Text(p.updateMethod.value)) else None
    case UpdateHeadersField => if p.updateHeaders.Some? then Some(Text(p.updateHeaders.value)) else None
    case UpdatePayloadField => if p.updatePayload.Some? then Some(Text(p.updatePayload.value)) else None
  }

  /** A source is its twelve fields: two sources that agree on every field are equal. */
  lemma FieldsDetermineSource(a: Source, b: Source)
    ensures (forall f :: FieldOf(a, f) == FieldOf(b, f)) ==> a == b
  {
    if forall f :: FieldOf(a, f) == FieldOf(b, f) {
      assert FieldOf(a, IdField) == FieldOf(b, IdField);
      assert FieldOf(a, NameField) == FieldOf(b, NameField);
      assert FieldOf(a, KindField) == FieldOf(b, KindField);
      assert FieldOf(a, ReceiveEndpointField) == FieldOf(b, ReceiveEndpointField);
      assert FieldOf(a, ReceiveMethodField) == FieldOf(b, ReceiveMethodField);
      assert FieldOf(a, ReceivePayloadField) == FieldOf(b, ReceivePayloadField);
      assert FieldOf(a, ReceiveHeadersField) == FieldOf(b, ReceiveHeadersField);
      assert FieldOf(a, ReceiveResponseExampleField) == FieldOf(b, ReceiveResponseExampleField);
      assert FieldOf(a, UpdateEndpointField) == FieldOf(b, UpdateEndpointField);
      assert FieldOf(a, UpdateMethodField) == FieldOf(b, UpdateMethodField);
      assert FieldOf(a, UpdateHeadersField) == FieldOf(b, UpdateHeadersField);
      assert FieldOf(a, UpdatePayloadField) == FieldOf(b, UpdatePayloadField);
    }
  }

  /**
   * The merge keeps every field the patch leaves out, the patch wins on
   * every field it carries, and merging the same patch twice is merging it
   * once.
   */
  lemma MergeLaws(s: Source, p: SourcePatch, t: Source)
    ensures Merge(s, EmptyPatch) == s
    ensures Merge(s, FullPatch(t)) == t
    ensures Merge(Merge(s, p), p) == Merge(s, p)
    ensures forall f :: PatchFieldOf(p, f).None? ==> FieldOf(Merge(s, p), f) == FieldOf(s, f)
    ensures forall f :: PatchFieldOf(p, f).Some? ==> FieldOf(Merge(s, p), f) == PatchFieldOf(p, f).value
  {
  }

  /** `sources.filter(source => source.id !== id)`. */
  function WithoutId(sources: seq<Source>, id: int): (r: seq<Source>)
    ensures forall s :: s in r <==> s in sources && s.id != id
    ensures |r| <= |sources|
  {
    if sources == [] then []
    else
      var rest := WithoutId(sources[1..], id);
      assert forall s :: s in sources <==> s == sources[0] || s in sources[1..];
      if sources[0].id == id then rest else [sources[0]] + rest
  }

  /**
   * The filter keeps the survivors in their original order: removing from
   * a concatenation removes from each part.
   */
  lemma {:induction false} WithoutIdAppend(a: seq<Source>, b: seq<Source>, id: int)
    ensures WithoutId(a + b, id) == WithoutId(a, id) + WithoutId(b, id)
  {
    if a == [] {
      assert a + b == b;
    } else {
      var c := a + b;
      assert c[0] == a[0] && c[1..] == a[1..] + b;
      var head := if a[0].id == id then [] else [a[0]];
      calc {
        WithoutId(c, id);
        == { WithoutIdCons(c, id); }
        head + WithoutId(a[1..] + b, id);
        == { WithoutIdAppend(a[1..], b, id); }
        head + (WithoutId(a[1..], id) + WithoutId(b, id));
        ==
        (head + WithoutId(a[1..], id)) + WithoutId(b, id);
        == { WithoutIdCons(a, id); }
        WithoutId(a, id) + WithoutId(b, id);
      }
    }
  }

  /** One step of the filter. */
  lemma WithoutIdCons(s: seq<Source>, id: int)
    requires s != []
    ensures WithoutId(s, id) == (if s[0].id == id then [] else [s[0]]) + WithoutId(s[1..], id)
  {
  }

  /** A list in which no source has the id is kept whole. */
  lemma {:induction false} WithoutIdKeepsAll(a: seq<Source>, id: int)
    requires forall i :: 0 <= i < |a| ==> a[i].id != id
    ensures WithoutId(a, id) == a
  {
    if a != [] {
      WithoutIdKeepsAll(a[1..], id);
      assert a == [a[0]] + a[1..];
    }
  }

  /**
   * After removing `id` no source has it, and the lookup of every other id
   * is unchanged, since the survivors keep their order.
   */
  lemma {:induction false} WithoutIdLookups(sources: seq<Source>, id: int, other: int)
    ensures FindSource(WithoutId(sources, id), id).None?
    ensures other != id ==> FindSource(WithoutId(sources, id), other) == FindSource(sources, other)
  {
    if sources != [] {
      WithoutIdLookups(sources[1..], id, other);
      var rest := WithoutId(sources[1..], id);
      if sources[0].id != id && other != id {
        var r := [sources[0]] + rest;
        assert r[1..] == rest;
        if sources[0].id != other {
          assert IndexOfId(r, other) == (if IndexOfId(rest, other) < 0 then -1 else IndexOfId(rest, other) + 1);
          assert IndexOfId(sources, other) == (if IndexOfId(sources[1..], other) < 0 then -1 else IndexOfId(sources[1..], other) + 1);
        }
      }
    }
  }

  /**
   * After an update that keeps the id, `getSource` finds the merged source,
   * and every other position holds what it held.
   */
  lemma UpdateLookup(sources: seq<Source>, id: int, p: SourcePatch)
    requires IndexOfId(sources, id) >= 0
    requires p.id.None? || p.id == Some(id)
    ensures var i := IndexOfId(sources, id);
            var updated := sources[i := Merge(sources[i], p)];
            && |updated| == |sources|
            && FindSource(updated, id) == Some(Merge(sources[i], p))
            && forall j :: 0 <= j < |sources| && j != i ==> updated[j] == sources[j]
  {
    var i := IndexOfId(sources, id);
    var updated := sources[i := Merge(sources[i], p)];
    assert updated[i].id == id;
    assert forall j :: 0 <= j < i ==> updated[j].id != id;
    assert IndexOfId(updated, id) == i;
  }

  /** The `sources` array; `saved` is what localStorage last received. */
  class Registry {
    var sources: seq<Source>
    ghost var saved: seq<Source>

    constructor ()
      ensures sources == [] && saved == []
    {
      sources := [];
      saved := [];
    }

    /**
     * `addSource`: a source without a name or type is ignored; otherwise
     * it keeps its id, or receives `freshId` when it has none, and is
     * appended at the end.
     */
    method AddSource(source: Source, freshId: int)
      modifies this
      ensures source.name == "" || source.kind == "" ==> sources == old(sources) && saved == old(saved)
      ensures source.name != "" && source.kind != "" ==>
                sources == old(sources) + [source.(id := if source.id != 0 then source.id else freshId)]
                && saved == sources
    {
      if source.name == "" || source.kind == "" {
        return;
      }
      var s := source.(id := if source.id != 0 then source.id else freshId);
      sources := sources + [s];
      saved := sources;
    }

    /** `removeSource`: drops every source with that id, then the mappings that mention it. */
    method RemoveSource(id: int, graph: Graph)
      modifies this, graph
      ensures sources == WithoutId(old(sources), id) && saved == sources
      ensures graph.buckets == Cascade(old(graph.buckets), id) && graph.saved == graph.buckets
      ensures graph.connectionsOrder == old(graph.connectionsOrder) && graph.savedOrder == old(graph.savedOrder)
    {
      sources := WithoutId(sources, id);
      saved := sources;
      graph.RemoveMappingsForSource(id);
    }

    /** `getSource`. */
    method GetSource(id: int) returns (r: Option<Source>)
      ensures r == FindSource(sources, id)
    {
      var i := 0;
      while i < |sources|
        invariant 0 <= i <= |sources|
        invariant forall j :: 0 <= j < i ==> sources[j].id != id
      {
        if sources[i].id == id {
          return Some(sources[i]);
        }
        i := i + 1;
      }
      return None;
    }

    /** `getAllSources`: a copy of the list; a sequence value shares nothing with the registry. */
    method GetAllSources() returns (r: seq<Source>)
      ensures r == sources
    {
      r := sources;
    }

    /**
     * `updateSource`: an unknown id changes nothing; otherwise the source
     * at the position of the first match is merged with the patch in place.
     */
    method UpdateSource(id: int, patch: SourcePatch)
      modifies this
      ensures IndexOfId(old(sources), id) < 0 ==> sources == old(sources) && saved == old(saved)
      ensures var i := IndexOfId(old(sources), id);
              i >= 0 ==> sources == old(sources)[i := Merge(old(sources)[i], patch)] && saved == sources
    {
      var i := IndexOfId(sources, id);
      if i == -1 {
        return;
      }
      sources := sources[i := Merge(sources[i], patch)];
      saved := sources;
    }

    /** `clearAllSources`. */
    method ClearAllSources()
      modifies this
      ensures sources == [] && saved == []
    {
      sources := [];
      saved := [];
    }
  }
}

# api-integrator field-mapping engine, modelled in Dafny

api-integrator is a browser tool. The user registers API sources. Each
source has a receive endpoint with an example response, and an update
endpoint. The user then draws connections from a response field of one
source to an update field of another. From those connections the tool
generates integration code in Python, PHP or Go, and it can simulate the
payloads the integration would send. This project models the engine
behind those features and proves properties of it:

- **Field extractor** (`field_extractor.dfy`): `parseJsonFields` turns a
  response example into an ordered, pre-order list of dotted field paths
  with their JavaScript types; `getFieldTypeBadgeClass` maps a type to its
  CSS class.
- **Mapping graph** (`mapping_graph.dfy`): the `fieldMappings` dictionary,
  keyed `"<sourceId>-><targetId>"`, whose value (a *bucket*) is the ordered
  list of field mappings between two sources; creating, removing and
  cascading deletion of mappings; the self-mapping guard of the bullet
  click handler; and the display order of the connection list, which
  merges the stored `connectionsOrder` with new connections. The module
  state is the class `Graph`.
- **Source registry** (`sources_list.dfy`): the ordered `sources` array
  with add, get, merge-update, remove (which cascades into the graph) and
  clear, as the class `Registry`.
- **Code-generator plan** (`code_generation.dfy`): the three generators
  make the same choices and differ in text, with one exception: the Go
  generator walks each emitted header object with `Object.entries`, which
  throws when the header text parses to `null`, where the Python and PHP
  generators print `null`. They are modelled as one abstract plan, built
  for a given language so that this difference is kept
  (`CodeGeneration.LanguagesAgree`). The plan holds a configuration block
  per source with an endpoint, one fetch per distinct source feeding a
  mapping, then a transform / assign / send block per bucket. A small run
  semantics of the generated Python `integrate()` shows that a failed
  fetch returns before any send, that a send answered with a non-2xx
  status does not stop the run, that a fetch or send whose request raises
  ends the run (the `except` around `integrate()` catches it), as does a
  fetch whose 2xx body is not JSON (`response.json()` raises), and that a step
  naming a variable no configuration block defined raises and ends the
  run. The PHP and Go programs, as intended, report a failed request as
  a failed status and decode a body that is not JSON as null; the same
  semantics covers them with that one difference. An identifier is derived from a source
  name by lower-casing it and collapsing whitespace runs to `_`.
- **Mapping simulator** (`test_mappings.dfy`): `testMappingsV1` builds, for
  each bucket, the payload the target would receive. It reads each source
  field out of the source's example along a dotted path
  (`getNestedValueV1`) and writes it along the target path
  (`setNestedValueV1`). The module also models the test button's state and
  `escapeHtml`.
- Shared modules: `wrappers.dfy` (`Option`), `strings.dfy` (decimal text
  of integers, `Number`/`parseInt` on decimal text, `split`/`join`,
  `trim`, ASCII case mapping) and `json.dfy` (parsed JSON values, `typeof`,
  truthiness, own-property lookup, property assignment, `for…in`
  enumeration).

Each operation that loops or updates state in the source is a `method` or
class method. Its `ensures` ties the result or the new state to a
specification function, and lemmas prove what the source promises about
that function. `JSON.parse` is passed in as a parameter of type `Parser`
(`None` when it throws). `Date.now()` is the `freshId` parameter of
`AddSource`. localStorage is modelled by ghost fields (`saved`,
`savedOrder`) that record what was last written.

Where the project's design documentation and its code disagree, the model
follows the code:

- The guard against mapping a source to itself is in
  `handleUpdateBulletClick` (`MappingGraph.Connect`), not in
  `createFieldMapping`, which maps anything it is given.
- `removeFieldMapping` removes every mapping of the bucket with the two
  field names, not a unique one.
- A top-level JSON array or string is enumerated by `for…in` (its indices
  become fields), rather than yielding no fields.
- The fetch set of the generators uses an untrimmed receive endpoint (any
  non-empty text). The configuration block uses the trimmed one. A source
  whose receive endpoint is only whitespace is therefore fetched without
  a configured URL, and the generated program raises at that fetch, so
  nothing is sent (`CodeGeneration.PlanVars`,
  `CodeGeneration.PlanFetchFailure`).
- `removeSource` itself calls `removeMappingsForSource`.
- The generated program returns at the first failed fetch. All fetches
  precede all sends, so one failed fetch means nothing is sent
  (`CodeGeneration.PlanFetchFailure`). The documentation instead describes
  the other mappings still being sent.
- An unparsable response example yields `null` (not `{}`), which gives
  the same empty payload (`MappingSimulator.EmptyExampleEmptyPayload`).
- A bucket gets a send even when its target has no update endpoint, since
  the generators do not check it. The generated program then names update
  variables that were never defined and raises at that send, which ends
  the run (`CodeGeneration.PlanSendCrash`).

## Model

| member | source | states |
|---|---|---|
| FieldExtractor.SchemaFields | tool/js/sources-map.js:43-68 | an empty text, or one `JSON.parse` rejects, gives no fields; otherwise the fields of the parsed value under the empty prefix |
| FieldExtractor.ParseJsonFields | tool/js/sources-map.js:43-68 | the imperative `parseJsonFields` returns exactly `SchemaFields` of its input |
| FieldExtractor.ExtractFields | tool/js/sources-map.js:47-62 | the recursive `for…in` loop that pushes and concatenates returns the flattening `FieldsOf(o, prefix)` |
| FieldExtractor.UpToIsPrefix | tool/js/sources-map.js:49-61 | the loop only appends: the fields after `i` entries are a prefix of the fields after any later entry |
| FieldExtractor.PreOrder | tool/js/sources-map.js:49-61 | the block of each entry (its own field, then its whole subtree) occupies consecutive positions, directly after the previous entry's block |
| FieldExtractor.EntryField | tool/js/sources-map.js:50-59 | each entry's field sits at its offset with name `prefix.key` (or `key`) and type `typeof`/"array"; an array or `null` yields one field, with type "array" or "object", and is not descended into |
| FieldExtractor.PathsExtendPrefix | tool/js/sources-map.js:53-58 | under a non-empty prefix every emitted path starts with `prefix + "."` |
| FieldExtractor.FieldKinds | tool/js/sources-map.js:51 | every extracted field's type is one of string, number, boolean, array, object |
| FieldExtractor.BadgeClass | tool/js/sources-map.js:75-84 | the five known types map to `field-type-<type>`, everything else to `field-type-other` |
| FieldExtractor.ExtractedFieldsHaveKnownBadge | tool/js/sources-map.js:43-84 | no field extracted from any example gets the fallback badge |
| FieldExtractor.UserExample | tool/js/sources-map.js:47-62 | `{"user":{"id":1,"name":"Bo"}}` flattens to user (object), user.id (number), user.name (string), in that order |
| JsonValues.Get | tool/test-mappings.js:420-421 | an own-property lookup is undefined exactly when no member has the name, and otherwise returns the value of a member with that name |
| JsonValues.Put | tool/test-mappings.js:433 | after `o[k] = v` the key reads `v`, every other key reads as before, and at most one member is added |
| JsonValues.ForInOwnProperties | tool/js/sources-map.js:49-50 | every key `for…in` visits reads, as an own property, the value visited with it (given distinct member names), every own property but an array's or string's `length` is visited, and an array or string gives one entry per element |
| JsonValues.ArrayIndex | tool/test-mappings.js:420 | a property name accepted as an array index is the canonical decimal text of that index |
| JsonValues.ArrayIndexOfText | tool/test-mappings.js:420 | the decimal text of every index is accepted as that index |
| Strings.ParseIntText | tool/js/sources-map.js:418-420 | `Number(String(n)) == n` for every integer id, so the loose comparison of a key half with an id is exact |
| Strings.ParseIntOfText | tool/test-mappings.js:343-344 | `parseInt(String(n)) === n` for every integer id |
| Strings.IntTextInjective | tool/js/sources-map.js:348 | two different ids never have the same decimal text |
| Strings.DigitPrefix | tool/test-mappings.js:343 | `parseInt` reads the longest run of leading digits |
| Strings.IndexOf | tool/js/sources-map.js:418 | the first occurrence of the separator at or after `k`, or -1 when there is none |
| Strings.Split | tool/test-mappings.js:416 | `split` with a non-empty separator yields at least one part |
| Strings.SplitJoin | tool/test-mappings.js:416 | splitting the `join` of parts that do not hold the one-character separator gives the parts back |
| Strings.TrimEmpty | tool/js/code-generation.js:23 | `s.trim() === ''` exactly when every character of `s` is whitespace |
| Strings.LowerLaws | tool/js/code-generation.js:16 | `toLowerCase` leaves no upper-case letter, changes only upper-case letters, is idempotent, and undoes `toUpperCase` up to case |
| Strings.UpperLaws | tool/test-mappings.js:362 | `toUpperCase` leaves no lower-case letter, changes only lower-case letters, is idempotent, and undoes `toLowerCase` up to case |
| MappingGraph.SplitKey | tool/js/sources-map.js:418 | splitting a key `s->t` on `->` gives exactly the two decimal ids |
| MappingGraph.KeyRoundTrip | tool/js/sources-map.js:348 | `Number` of each half of a key is the id the key was built from |
| MappingGraph.KeyInjective | tool/js/sources-map.js:348 | different id pairs have different keys |
| MappingGraph.IndexOfKey | tool/js/sources-map.js:349 | the position of the first entry with the key, or -1 exactly when there is none |
| MappingGraph.LookupAppend | tool/js/sources-map.js:350 | a lookup in a dictionary with entries appended finds the old entry if there was one, else the new one |
| MappingGraph.LookupUpdate | tool/js/sources-map.js:358 | replacing an entry changes the lookup of its key only |
| MappingGraph.LookupDelete | tool/js/sources-map.js:389-391 | `delete fieldMappings[key]` removes that key and changes no other lookup |
| MappingGraph.Create | tool/js/sources-map.js:345-376 | when the field pair is already in the bucket, the dictionary is unchanged |
| MappingGraph.CreateAppends | tool/js/sources-map.js:349-365 | a new mapping goes at the end of bucket `s->t`; an absent bucket is created at the end of the dictionary; every other bucket is unchanged |
| MappingGraph.CreateIdempotent | tool/js/sources-map.js:353-356 | creating the same mapping twice is creating it once |
| MappingGraph.CreateStoresOnce | tool/js/sources-map.js:353-365 | in a valid graph, whether or not the pair was there, afterwards the bucket holds exactly one mapping with those two fields |
| MappingGraph.CreatePreservesValid | tool/js/sources-map.js:345-376 | creating keeps the graph invariant: distinct keys, every mapping under its own ids' key, no empty bucket, no duplicate field pair in a bucket |
| MappingGraph.CreateKeepsNoSelfMappings | tool/js/sources-map.js:345-365 | creating a mapping between two different sources adds no self-mapping |
| MappingGraph.Connect | tool/js/sources-map.js:254-294 | without a selected response field, or with one from the same source, nothing changes; otherwise the mapping is created |
| MappingGraph.ConnectKeepsNoSelfMappings | tool/js/sources-map.js:279-294 | however the user clicks, the graph never acquires a mapping from a source to itself |
| MappingGraph.Without | tool/js/sources-map.js:386-388 | the filter keeps exactly the mappings that do not connect the two fields |
| MappingGraph.WithoutAppend | tool/js/sources-map.js:386-388 | the filter keeps the surviving mappings in their stored order (the order of the generated assignments): filtering a concatenation filters each part |
| MappingGraph.WithoutKeepsAll | tool/js/sources-map.js:386-388 | a bucket without the field pair is kept whole |
| MappingGraph.WithoutKeepsNoDuplicates | tool/js/sources-map.js:386-388 | filtering keeps a bucket free of duplicate field pairs |
| MappingGraph.Remove | tool/js/sources-map.js:384-399 | an absent key changes nothing |
| MappingGraph.RemoveEffect | tool/js/sources-map.js:384-399 | afterwards the bucket holds no mapping for the two fields and keeps every other; it is deleted exactly when nothing is left; every other bucket is unchanged |
| MappingGraph.RemovePreservesValid | tool/js/sources-map.js:384-399 | removing keeps the graph invariant and the absence of self-mappings |
| MappingGraph.DeleteKeepsValid | tool/js/sources-map.js:389-391 | deleting a bucket keeps the graph invariant |
| MappingGraph.Cascade | tool/js/sources-map.js:413-429 | the new dictionary holds only buckets of the old one whose key halves both differ from the id |
| MappingGraph.UnrelatedIffNotMentioned | tool/js/sources-map.js:418-420 | in a valid graph, the key test `sourceIdStr != id && targetIdStr != id` holds exactly when no mapping of the bucket has the id as source or target |
| MappingGraph.CascadeEffect | tool/js/sources-map.js:413-429 | removing a source's mappings drops exactly the buckets that mention it, keeps every other bucket with its contents, and keeps the graph valid |
| MappingGraph.CascadeFilters | tool/js/sources-map.js:417-424 | every bucket whose key passes the test is copied |
| MappingGraph.CascadeKeepsDistinctKeys | tool/js/sources-map.js:417-424 | the rebuilt dictionary keeps its keys distinct |
| MappingGraph.CascadeIdempotent | tool/js/sources-map.js:413-429 | removing the same source's mappings again removes nothing more |
| MappingGraph.CascadeEachKeeps | tool/js/sources-map.js:413-429 | after removing the mappings of several sources one after another, the graph is valid and keeps only original buckets that mention none of them |
| MappingGraph.CascadeAll | tool/js/sources-map.js:413-438 | removing, one after another, the mappings of sources that include the source of every mapping leaves the empty dictionary, as `clearAllFieldMappings` does |
| MappingGraph.BucketConnections | tool/js/sources-map.js:667-679 | one connection per mapping of a bucket, in order, whose id joins the key, the source field and the target field with a vertical bar |
| MappingGraph.AllConnectionsMembers | tool/js/sources-map.js:659-681 | a connection is listed exactly when some mapping of some bucket draws it |
| MappingGraph.FindConnection | tool/js/sources-map.js:690 | `find` returns the first connection with the id, or nothing exactly when none has it |
| MappingGraph.NewPicksShape | tool/js/sources-map.js:695-700 | the connections appended are exactly those the stored order did not pick, in list order |
| MappingGraph.StoredPicksNamed | tool/js/sources-map.js:689-693 | every connection taken from the stored order exists and is named by the stored order |
| MappingGraph.MergeShape | tool/js/sources-map.js:688-700 | the rendered list starts with the connections of the stored order's ids that name a connection, in stored order, then the others in list order, and shows every connection; with distinct ids, a connection comes first exactly when the stored order names it |
| MappingGraph.StoredIdsKnown | tool/js/sources-map.js:689-693 | the ids of the connections taken from the stored order are the stored order with unknown ids dropped |
| MappingGraph.StoredPicksComplete | tool/js/sources-map.js:689-693 | with distinct connection ids, every connection the stored order names is taken from it |
| MappingGraph.MergedOrderNoRepeats | tool/js/sources-map.js:695-700 | with distinct connection ids, a repetition-free stored order stays repetition-free after a render |
| MappingGraph.MergeIsPermutation | tool/js/sources-map.js:688-700 | with distinct connection ids and a repetition-free stored order, every connection is shown exactly once |
| MappingGraph.MergedOrderNamesAll | tool/js/sources-map.js:695-700 | after a render the stored order names every shown connection |
| MappingGraph.MergeStable | tool/js/sources-map.js:688-700 | rendering again shows the same list and appends nothing more to the stored order |
| MappingGraph.KeepUnrelated | tool/js/sources-map.js:417-424 | the `forEach` that copies unrelated buckets builds `Cascade` |
| MappingGraph.CollectConnections | tool/js/sources-map.js:659-681 | the nested `forEach` builds the list of all connections |
| MappingGraph.PickStored | tool/js/sources-map.js:689-693 | the `connectionsOrder.forEach` collects the connections the stored order names |
| MappingGraph.MergeOrder | tool/js/sources-map.js:688-700 | the two merge loops produce the sorted list and the extended order |
| MappingGraph.Graph.constructor | tool/js/sources-map.js:2 | the dictionary and the stored order start empty |
| MappingGraph.Graph.CreateFieldMapping | tool/js/sources-map.js:345-376 | the dictionary becomes `Create` of the old one, and is saved exactly when a mapping was added |
| MappingGraph.Graph.HandleUpdateBulletClick | tool/js/sources-map.js:248-295 | the dictionary becomes `Connect` of the old one; the selection is cleared only when a mapping was attempted |
| MappingGraph.Graph.RemoveFieldMapping | tool/js/sources-map.js:384-399 | the dictionary becomes `Remove` of the old one, saved unless the key was absent |
| MappingGraph.Graph.RemoveMappingsForSource | tool/js/sources-map.js:413-429 | the dictionary becomes `Cascade` of the old one, and is saved |
| MappingGraph.Graph.ClearAllFieldMappings | tool/js/sources-map.js:434-438 | the dictionary is empty and saved |
| MappingGraph.Graph.RenderConnectionsList | tool/js/sources-map.js:653-791 | returns the connections in merged order and extends the stored order, which is saved unless the list is empty |
| Wrappers.FirstIndex | tool/sources-list.js:132 | `findIndex` on a key: the first position whose element has the key, or -1 exactly when none has it |
| SourceRegistry.IndexOfId | tool/sources-list.js:132 | the position of the first source with the id, or -1 exactly when there is none |
| SourceRegistry.FindSource | tool/sources-list.js:114-116 | the first source whose id is strictly equal, or null exactly when none has it |
| SourceRegistry.FieldsDetermineSource | tool/sources-list.js:134 | two sources that agree on each of the twelve fields are the same source |
| SourceRegistry.MergeLaws | tool/sources-list.js:134 | `{...source, ...patch}` keeps each of the twelve fields the patch omits, takes each one it carries, and is idempotent |
| SourceRegistry.WithoutId | tool/sources-list.js:97 | the filter keeps exactly the sources with another id |
| SourceRegistry.WithoutIdAppend | tool/sources-list.js:97 | removal keeps the other sources in their original order: filtering a concatenation filters each part |
| SourceRegistry.WithoutIdKeepsAll | tool/sources-list.js:97 | a list in which no source has the id is kept whole |
| SourceRegistry.WithoutIdLookups | tool/sources-list.js:96-107 | after removal no source has the id, and every other id is found as before |
| SourceRegistry.UpdateLookup | tool/sources-list.js:131-138 | after an update that keeps the id, `getSource` finds the merged source and every other position is unchanged |
| SourceRegistry.Registry.constructor | tool/sources-list.js:2 | the list starts empty |
| SourceRegistry.Registry.AddSource | tool/sources-list.js:82-90 | a source without name or type is ignored; otherwise it is appended with its id, or `Date.now()` when it has none, and saved |
| SourceRegistry.Registry.RemoveSource | tool/sources-list.js:96-107 | sources with the id are dropped and saved, the graph's mappings for the id are removed and saved, and the stored connection order and its saved copy are unchanged |
| SourceRegistry.Registry.GetSource | tool/sources-list.js:114-116 | returns `FindSource` of the list |
| SourceRegistry.Registry.GetAllSources | tool/sources-list.js:122-124 | returns a copy of the list |
| SourceRegistry.Registry.UpdateSource | tool/sources-list.js:131-138 | an unknown id changes nothing; otherwise the first match is merged with the patch in place and saved |
| SourceRegistry.Registry.ClearAllSources | tool/sources-list.js:143-148 | the list is empty and saved |
| CodeGeneration.CollapseWhitespace | tool/js/code-generation.js:16 | `replace(/\s+/g, '_')` never lengthens the text |
| CodeGeneration.CollapseNoWhitespace | tool/js/code-generation.js:16 | the result holds no whitespace |
| CodeGeneration.CollapseIdentity | tool/js/code-generation.js:16 | a text without whitespace is unchanged |
| CodeGeneration.CollapseRun | tool/js/code-generation.js:16 | a whole whitespace run between two words becomes one underscore |
| CodeGeneration.VarNameNormal | tool/js/code-generation.js:16 | a variable name has no whitespace and deriving it again changes nothing |
| CodeGeneration.Assigns | tool/js/code-generation.js:110-113 | one assignment per mapping of the bucket, in stored order, target field from source field |
| CodeGeneration.HeadersThrow | tool/js/code-generation.js:355-356 | an emitted header text makes generation throw exactly when `JSON.parse` throws, or, in the Go generator, when it parses to `null`; otherwise it is the parsed value |
| CodeGeneration.ConfigureEndpoint | tool/js/code-generation.js:23-35 | one endpoint part is `EndpointOf` of its URL, method, default method and header text |
| CodeGeneration.ConfigureSource | tool/js/code-generation.js:15-38 | one source's configuration block is `ConfigOf` the source |
| CodeGeneration.ConfigureSources | tool/js/code-generation.js:15-38 | the `sources.forEach` builds `ConfigSteps`, failing as soon as a header text throws |
| CodeGeneration.ConfigBlock | tool/js/code-generation.js:15-38 | a source without endpoints gets no block; otherwise the block holds a receive part exactly when the trimmed receive URL is non-empty (method defaulting to GET), an update part exactly when the trimmed update URL is (POST), and fails exactly when an emitted part's headers do not parse |
| CodeGeneration.ConfigSection | tool/js/code-generation.js:15-38 | the section succeeds exactly when every source's block does, and then holds one block per source with an endpoint, in source order |
| CodeGeneration.CollectFetchIds | tool/js/code-generation.js:60-67 | the `Object.keys(mappings).forEach` fills `sourcesToFetch` as `FetchIds` |
| CodeGeneration.FetchIdsMembers | tool/js/code-generation.js:60-67 | `sourcesToFetch` holds each id once, and exactly the ids some bucket's source half resolves to, for sources with a receive endpoint |
| CodeGeneration.Candidates | tool/js/code-generation.js:61-66 | one candidate command per bucket: the bucket's source id, when that source resolves and has a receive endpoint |
| CodeGeneration.FetchIdsDedup | tool/js/code-generation.js:60-67 | `sourcesToFetch` is the insertion-ordered de-duplication of the buckets' candidates, as a `Set` keeps them |
| CodeGeneration.DedupMembers | tool/js/code-generation.js:60-67 | the de-duplication holds exactly the candidates |
| CodeGeneration.FetchIdsFirstSeen | tool/js/code-generation.js:60-67 | an id earlier in `sourcesToFetch` is produced by a bucket before any bucket produces a later one |
| CodeGeneration.CandidateResolves | tool/js/code-generation.js:62-65 | every fetched id resolves to a source whose receive endpoint is non-empty text |
| CodeGeneration.EmitFetches | tool/js/code-generation.js:70-85 | the `sourcesToFetch.forEach` writes `FetchSteps` |
| CodeGeneration.FetchSection | tool/js/code-generation.js:70-85 | when every id resolves, the fetch section is one fetch per id of `sourcesToFetch`, in set order |
| CodeGeneration.FetchIdsResolve | tool/js/code-generation.js:60-72 | every id put in `sourcesToFetch` is found again when the fetches are written |
| CodeGeneration.EmitAssigns | tool/js/code-generation.js:110-113 | the `fieldMappings.forEach` writes `Assigns` |
| CodeGeneration.EmitBlock | tool/js/code-generation.js:96-124 | one bucket's steps are `BlockOf` the bucket |
| CodeGeneration.EmitBlocks | tool/js/code-generation.js:93-126 | the `Object.entries(mappings).forEach` writes `Blocks` |
| CodeGeneration.BlockShape | tool/js/code-generation.js:96-124 | a bucket gets no block unless both ids resolve and the source has a receive endpoint; otherwise one transform from the source, one assignment per mapping in order, and one send to the target |
| CodeGeneration.CountSendsAppend | tool/js/code-generation.js:93-126 | the sends of two step lists add up |
| CodeGeneration.OneSendPerBucket | tool/js/code-generation.js:93-126 | the mapping section sends exactly once per bucket that gets a block |
| CodeGeneration.BlocksFromCandidates | tool/js/code-generation.js:93-126 | every step of the mapping section is a transform, assignment or send, and every transform's source is a fetch candidate |
| CodeGeneration.GeneratePlan | tool/js/code-generation.js:4-135 | a generator run produces `Plan`: configuration, fetches, blocks; nothing when a header text throws |
| CodeGeneration.SectionOrder | tool/js/code-generation.js:58-126 | configuration, fetch and block steps keep that order in the plan |
| CodeGeneration.FetchSectionOfPlan | tool/js/code-generation.js:58-85 | the plan's fetches are those of `sourcesToFetch`, in order, and no others |
| CodeGeneration.PlanOrder | tool/js/code-generation.js:14-126 | configuration blocks come first, then fetches, then blocks: every fetch precedes every transform, assignment and send |
| CodeGeneration.PlanFetchesOnce | tool/js/code-generation.js:58-85 | each source is fetched at most once |
| CodeGeneration.PlanTransformsFetched | tool/js/code-generation.js:58-126 | every transform is preceded by a fetch of its own source |
| CodeGeneration.SendsContinue | tool/js/code-generation.js:115-123 | when every fetch gets a 2xx status, every fetch and send names defined variables, and (in Python) no fetch or send raises, a fetch raising also on a 2xx body that is not JSON, every send is attempted, whichever sends get a non-2xx status |
| CodeGeneration.FetchFailureAborts | tool/js/code-generation.js:76-83 | a fetch that fails, names undefined variables, or raises in Python (its request, or `response.json()` on its body), with no send before it, ends the run before any send |
| CodeGeneration.CrashStops | tool/js/code-generation.js:118-136 | a fetch or send naming undefined variables, or a Python fetch or send that raises, ends the run: no send after it is attempted |
| CodeGeneration.PlanFetchFailure | tool/js/code-generation.js:70-126 | in a generated program one fetch that fails or raises means no data is sent at all |
| CodeGeneration.PlanSendCount | tool/js/code-generation.js:93-126 | a generated program holds one send per bucket that got a block |
| CodeGeneration.PlanSendsAll | tool/js/code-generation.js:70-126 | when every fetch gets a 2xx status, every fetch and send names defined variables, and (in Python) no fetch or send raises, a fetch raising also on a 2xx body that is not JSON, the program attempts one send per bucket that got a block, whatever status the sends get |
| CodeGeneration.PlanSendCrash | tool/js/code-generation.js:116-118 | a send to a target whose update variables were never defined raises, so fewer sends are attempted than there are blocks |
| CodeGeneration.PlanSendRaise | tool/js/code-generation.js:118-135 | in Python, a send whose request raises before a later send ends the run, so fewer sends are attempted than there are blocks |
| CodeGeneration.BlockVars | tool/js/code-generation.js:22-35 | one source's block defines its receive variables exactly when the trimmed receive endpoint is non-empty, and its update variables exactly when the trimmed update endpoint is |
| CodeGeneration.ConfigVars | tool/js/code-generation.js:15-38 | the configuration section defines `<var>_url` and its kin exactly for the sources whose trimmed receive endpoint is non-empty, and `<var>_update_url` and its kin exactly for those whose trimmed update endpoint is |
| CodeGeneration.PlanVars | tool/js/code-generation.js:15-126 | only the configuration section of a generated program defines variables: the same ones |
| CodeGeneration.LanguageOf | tool/js/code-generation.js:529-558 | "php" selects PHP, "go" selects Go, anything else, missing included, selects Python |
| CodeGeneration.RenderCode | tool/js/code-generation.js:517-570 | the placeholder exactly when there are no sources or no mappings; otherwise the plan of the selected language's generator; when that generator throws, `renderCode` throws before writing, leaving the previous output |
| CodeGeneration.UnknownLanguageIsPython | tool/js/code-generation.js:546-558 | an unknown language shows what Python shows |
| CodeGeneration.BlockAgrees | tool/js/code-generation.js:355-369 | the Python and PHP generators build the same configuration block; the Go one builds it too, and throws exactly when they throw or an emitted header text is `null` |
| CodeGeneration.ConfigAgrees | tool/js/code-generation.js:15-38 | the same for the whole configuration section |
| CodeGeneration.LanguagesAgree | tool/js/code-generation.js:4-135 | the Python and PHP plans are equal; a Go plan, when there is one, equals them; and Go throws exactly when they throw or some emitted header text is `null` |
| CodeGeneration.GoNullThrows | tool/js/code-generation.js:355-356 | with `go` selected, a source with an emitted `null` header text makes `renderCode` throw, leaving the previous output, while Python and PHP show the same plan, or both throw |
| MappingSimulator.SafeParseJson | tool/test-mappings.js:410-413 | `null` for an empty text or one `JSON.parse` rejects, otherwise the parsed value |
| MappingSimulator.GetNested | tool/test-mappings.js:415-416 | a falsy object or an empty path gives undefined |
| MappingSimulator.GetNestedValue | tool/test-mappings.js:415-427 | the cursor loop equals the walk along the split path |
| MappingSimulator.WalkAppend | tool/test-mappings.js:418-426 | walking `a + b` is walking `a`, then `b` from where it ended |
| MappingSimulator.WalkStops | tool/test-mappings.js:419-424 | once a segment is not an own property of a truthy value, the result is undefined |
| MappingSimulator.SetPath | tool/test-mappings.js:429-440 | setting a path changes no top-level key other than its first segment |
| MappingSimulator.SetThenWalk | tool/test-mappings.js:429-440 | after setting a path, walking the same segments finds the value |
| MappingSimulator.SetThenGet | tool/test-mappings.js:415-440 | `getNestedValueV1` returns what `setNestedValueV1` stored at a non-empty path |
| MappingSimulator.ResultOf | tool/test-mappings.js:342-367 | a bucket yields a result exactly when both ids resolve; the result has the names with fallbacks, the upper-cased method defaulting to POST, the URL or its placeholder, status "success" and the mapped count |
| MappingSimulator.TestMappings | tool/test-mappings.js:318-371 | fewer than two sources, or no mappings, give those error messages exactly; otherwise results are produced |
| MappingSimulator.BuildPayload | tool/test-mappings.js:349-357 | the payload loop builds `Payload` of the example and the bucket |
| MappingSimulator.SimulateBucket | tool/test-mappings.js:342-367 | one bucket's simulation is `ResultOf` the bucket |
| MappingSimulator.TestMappingsV1 | tool/test-mappings.js:318-371 | the imperative `testMappingsV1` returns `TestMappings` |
| MappingSimulator.OneResultPerBucket | tool/test-mappings.js:341-368 | exactly one result per bucket whose ids resolve, in bucket order; other buckets are skipped |
| MappingSimulator.EmptyExampleEmptyPayload | tool/test-mappings.js:349-357 | an absent or unparsable example gives an empty payload: no undefined value is ever written |
| MappingSimulator.LastMappingWins | tool/test-mappings.js:351-356 | the last mapping into a target path leaves there the value its source path holds |
| MappingSimulator.ExamplePayload | tool/test-mappings.js:349-357 | example `{"user":{"id":1,"name":"Bo"}}` with mapping user.name to fullName gives payload `{"fullName":"Bo"}` |
| MappingSimulator.ExampleGet | tool/test-mappings.js:415-427 | `getNestedValueV1` of that example at user.name is "Bo" |
| MappingSimulator.ExampleSet | tool/test-mappings.js:429-440 | `setNestedValueV1` of fullName on an empty payload gives `{"fullName":"Bo"}` |
| MappingSimulator.ButtonState | tool/test-mappings.js:38-70 | the button is disabled exactly when there are fewer than two sources or no mappings, with the matching title |
| MappingSimulator.ButtonAgreesWithSimulation | tool/test-mappings.js:38-70 | the button is enabled exactly when the simulation produces results rather than an error |
| MappingSimulator.ReplaceAll | tool/test-mappings.js:444-449 | replacing a character the text does not hold changes nothing |
| MappingSimulator.ReplaceAllAppend | tool/test-mappings.js:444-449 | a global single-character replacement distributes over concatenation |
| MappingSimulator.ChainOfChar | tool/test-mappings.js:444-449 | one character through the five replacements gives exactly its entity; `&` first means no entity is escaped twice |
| MappingSimulator.EscapeIsCharwise | tool/test-mappings.js:442-450 | `escapeHtml` equals replacing each character by its entity once |
| MappingSimulator.EscapeSafe | tool/test-mappings.js:442-450 | the output holds no `<`, `>`, `"` or `'`, and is empty exactly when the input is |
| MappingSimulator.EscapeEachLength | tool/test-mappings.js:442-450 | escaping never shortens the text |

## Left out

- The DOM, SVG drawing of connections, drag-and-drop, events, timers and
  console output: they are presentation. `renderConnections` and
  `renderCode` calls made after a change are not modelled.
- localStorage and its loading on page start: writes are modelled as
  ghost snapshots (`saved`, `savedOrder`), and the stored form is not
  parsed back.
- Network requests, async testers and `displayMappingResults`: the
  simulator returns its results instead of writing HTML, and the
  "Required modules not loaded" branch (which depends on script loading)
  is not modelled.
- The exact text the generators write for each language; the plan keeps
  every choice they make but not the strings. Two sources whose names give
  the same identifier are not told apart, as in the generators.
- Running the generated program: the run semantics (`CodeGeneration.Run`)
  models only whether each fetch and each send succeeds, not HTTP, and
  whether the variables a step names were defined.
- The run semantics is that of the Python program, and of the PHP 8 and
  Go programs as intended, where a failed request is reported and the run
  goes on (`CodeGeneration.RaiseEndsRun` holds only for Python). A Go
  program with two or more blocks does not compile (`transformed_data :=`
  is declared twice), nor does one that names undefined variables; that is
  not modelled. Under PHP 7, `array_keys(null)` only warns and the request
  goes out with null settings instead of ending the run; that is not
  modelled either.
- Header values at run time: a header text that parses to `null` or to a
  non-object is printed as is by the Python and PHP generators, and how
  `requests` or `array_keys` then fail is not modelled.
- PHP header literals: the PHP generator prints each header object with
  `JSON.stringify` (tool/js/code-generation.js:165 and 172), so a header
  object, the default `{}` included, becomes `$x_headers = {...};`, which
  is not PHP and does not parse. The PHP program as printed parses only
  when every emitted header is a JSON array or scalar; `CodeGeneration.Run`
  describes the PHP program as intended.
- Python header literals: a header object containing `true`, `false` or
  `null` is printed as is, and those names are undefined in Python, so the
  program raises `NameError` at module level, outside the `try` around
  `integrate()`, before any fetch. That is not modelled.
- JSON.parse itself: it is a parameter. Values are integers only:
  floating-point numbers are not modelled.
- JavaScript's property order, which puts integer-like keys first: an
  object lists its members in the order the parser gives them.
- `__proto__`, `constructor` and other inherited property names:
  `setNestedValueV1` reads `cur[p]` through the prototype chain, and the
  model only sees own members.
- Strings.ParseNumber: models `Number()` only on optionally signed decimal
  integers, without surrounding whitespace, `+`, exponents or fractions,
  which are the only forms a key half produced by the tool can take.
- Strings.ParseInt: models `parseInt` as decimal only. Without a radix,
  `parseInt` also reads a `0x`/`0X` prefix as hexadecimal (`"0x1A"` gives
  26, the model gives 0); that is not modelled, since a key half built
  from an integer id never has it.
- Strings.ToLower: maps ASCII letters only; Unicode case mapping is not
  modelled. The same holds for Strings.ToUpper.
- MappingSimulator.SetPath: an intermediate that is an array is replaced
  by `{}`, whereas JavaScript keeps it (an array is a truthy object). The
  payload and the example are modelled as values, not objects mutated in
  place, so aliasing is lost: `cur[p] = value` stores a reference to an
  object of the example, and a later write through the payload changes the
  example too. With example `{"a":{"x":1},"n":2}` and mappings a to p, n to
  p.x, then a.x to q, JavaScript writes 2 into the shared object and sends
  q = 2; the model sends q = 1.
- MappingGraph.MergeOrder: requires a non-empty connection list, because
  `renderConnectionsList` returns before merging when the list is empty.
- Connection names shown in the list (source and target names) and the
  drag-and-drop reorder that rewrites `connectionsOrder`
  (`updateConnectionsOrder`).
- `getAllFieldMappings` returns the dictionary itself, so callers could
  alias and mutate it; the model passes the dictionary as a value.
- `Date.now()`: the fresh id is the `freshId` parameter of `AddSource`.
- run_integration.py and the demo APIs under demo-apis/ are example
  programs outside the engine.

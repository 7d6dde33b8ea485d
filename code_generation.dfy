/**
 * The selection and ordering logic shared by the three code generators of
 * tool/js/code-generation.js (Python, PHP and Go). Each generator emits
 * the same abstract plan: one configuration block per source that has an
 * endpoint, one fetch per distinct source that feeds a mapping, then one
 * transform/send block per mapping bucket. The language changes the text,
 * which is not modelled, and one failure: the Go generator walks the
 * parsed header object with `Object.entries`, which throws on `null`.
 */
module CodeGeneration {
  import opened Wrappers
  import opened Strings
  import opened JsonValues
  import opened MappingGraph
  import opened SourceRegistry

  // ---------------------------------------------------------------------
  // Variable names: name.toLowerCase().replace(/\s+/g, '_')
  // ---------------------------------------------------------------------

  /** `s.replace(/\s+/g, '_')`: every maximal whitespace run becomes one underscore. */
  function CollapseWhitespace(s: string): (r: string)
    ensures |r| <= |s|
    decreases |s|
  {
    if s == [] then []
    else if IsWhitespace(s[0]) then "_" + CollapseWhitespace(TrimStart(s[1..]))
    else [s[0]] + CollapseWhitespace(s[1..])
  }

  /** The identifier the generators derive from a source name. */
  function VarName(name: string): (r: string)
  {
    CollapseWhitespace(ToLower(name))
  }

  predicate NoWhitespace(s: string)
  {
    forall i :: 0 <= i < |s| ==> !IsWhitespace(s[i])
  }

  lemma {:induction false} CollapseNoWhitespace(s: string)
    ensures NoWhitespace(CollapseWhitespace(s))
    decreases |s|
  {
    if s != [] {
      if IsWhitespace(s[0]) {
        CollapseNoWhitespace(TrimStart(s[1..]));
      } else {
        CollapseNoWhitespace(s[1..]);
      }
    }
  }

  /** A text without whitespace is its own collapse. */
  lemma {:induction false} CollapseIdentity(s: string)
    requires NoWhitespace(s)
    ensures CollapseWhitespace(s) == s
    decreases |s|
  {
    if s != [] {
      assert !IsWhitespace(s[0]);
      assert NoWhitespace(s[1..]) by {
        forall i | 0 <= i < |s| - 1 ensures !IsWhitespace(s[1..][i]) { assert s[1..][i] == s[i + 1]; }
      }
      CollapseIdentity(s[1..]);
    }
  }

  /**
   * A word `a`, then a whitespace run `w`, then text `b` that does not
   * start with whitespace: the word is kept and the whole run becomes one
   * underscore.
   */
  lemma {:induction false} CollapseRun(a: string, w: string, b: string)
    requires NoWhitespace(a)
    requires w != [] && AllWhitespace(w)
    requires b == [] || !IsWhitespace(b[0])
    ensures CollapseWhitespace(a + w + b) == a + "_" + CollapseWhitespace(b)
    decreases |a|
  {
    if a == [] {
      assert a + w + b == w + b;
      assert (w + b)[1..] == w[1..] + b;
      TrimStartRun(w[1..], b);
    } else {
      var rest := a[1..];
      assert NoWhitespace(rest) by {
        forall i | 0 <= i < |rest| ensures !IsWhitespace(rest[i]) { assert rest[i] == a[i + 1]; }
      }
      assert (a + w + b)[0] == a[0];
      assert (a + w + b)[1..] == rest + w + b;
      CollapseRun(rest, w, b);
      assert a + "_" + CollapseWhitespace(b) == [a[0]] + (rest + "_" + CollapseWhitespace(b));
    }
  }

  /** A whitespace run followed by text that does not start with whitespace trims to that text. */
  lemma {:induction false} TrimStartRun(w: string, b: string)
    requires AllWhitespace(w)
    requires b == [] || !IsWhitespace(b[0])
    ensures TrimStart(w + b) == b
    decreases |w|
  {
    if w == [] {
      assert w + b == b;
    } else {
      assert (w + b)[1..] == w[1..] + b;
      TrimStartRun(w[1..], b);
    }
  }

  /** `TrimStart(s)` is a suffix of `s` whose dropped prefix is all whitespace. */
  lemma {:induction false} LeadingRun(s: string)
    ensures |TrimStart(s)| <= |s|
    ensures s == s[..|s| - |TrimStart(s)|] + TrimStart(s)
    ensures AllWhitespace(s[..|s| - |TrimStart(s)|])
    decreases |s|
  {
    if s != [] && IsWhitespace(s[0]) {
      LeadingRun(s[1..]);
      var t := TrimStart(s);
      var k := |s| - |t|;
      assert s[1..] == s[1..][..k - 1] + t;
      assert s[..k] == [s[0]] + s[1..][..k - 1];
    } else {
      assert s[..0] == [];
    }
  }

  /** A variable name has no whitespace, and normalising it again changes nothing. */
  lemma VarNameNormal(name: string)
    ensures NoWhitespace(VarName(name))
    ensures VarName(VarName(name)) == VarName(name)
  {
    var lowered := ToLower(name);
    CollapseNoWhitespace(lowered);
    var v := VarName(name);
    assert ToLower(v) == v by {
      LowerOutput(lowered);
    }
    CollapseIdentity(v);
  }

  /** The collapse of lower-cased text is unchanged by lower-casing. */
  lemma {:induction false} LowerOutput(s: string)
    requires forall i :: 0 <= i < |s| ==> LowerChar(s[i]) == s[i]
    ensures ToLower(CollapseWhitespace(s)) == CollapseWhitespace(s)
    decreases |s|
  {
    if s != [] {
      if IsWhitespace(s[0]) {
        var t := TrimStart(s[1..]);
        LeadingRun(s[1..]);
        forall i | 0 <= i < |t| ensures LowerChar(t[i]) == t[i] {
          assert t[i] == s[1..][|s[1..]| - |t| + i];
        }
        LowerOutput(t);
      } else {
        forall i | 0 <= i < |s| - 1 ensures LowerChar(s[1..][i]) == s[1..][i] {
          assert s[1..][i] == s[i + 1];
        }
        LowerOutput(s[1..]);
      }
    }
  }

  // ---------------------------------------------------------------------
  // The plan
  // ---------------------------------------------------------------------

  /** One endpoint configuration: `<var>_url`, `<var>_method`, `<var>_headers`. */
  datatype Endpoint = Endpoint(url: string, verb: string, headers: Json)

  datatype Step =
    | Configure(sourceName: string, variable: string, receive: Option<Endpoint>, update: Option<Endpoint>)
    | Fetch(sourceId: int, sourceName: string, variable: string)
    | Transform(sourceId: int, targetId: int, sourceVar: string)
    | Assign(targetField: string, sourceVar: string, sourceField: string)
    | Send(targetId: int, targetName: string, targetVar: string)

  /** `x && x.trim() !== ''`. */
  predicate HasText(x: string)
  {
    x != "" && Trim(x) != ""
  }

  datatype Language = Python | Php | Go

  /**
   * `text ? JSON.parse(text) : {}`; `None` when `JSON.parse` throws, or, in
   * the Go generator, when `Object.entries` of the parsed value does.
   */
  function HeadersOf(lang: Language, parse: Parser, text: string): (r: Option<Json>)
  {
    if text == "" then Some(JObj([]))
    else match parse(text)
      case None => None
      case Some(h) => if lang == Go && h == JNull then None else Some(h)
  }

  /** The header text of an emitted part makes generation throw exactly when these hold. */
  lemma HeadersThrow(lang: Language, parse: Parser, text: string)
    ensures HeadersOf(lang, parse, text).None? <==>
              text != "" && (parse(text).None? || (lang == Go && parse(text) == Some(JNull)))
    ensures HeadersOf(lang, parse, text).Some? && text != "" ==> HeadersOf(lang, parse, text) == parse(text)
  {
  }

  /** One endpoint block: `Some(None)` when it is skipped, `None` when its headers do not parse. */
  function EndpointOf(lang: Language, parse: Parser, url: string, verb: string, defaultVerb: string, headers: string): (r: Option<Option<Endpoint>>)
  {
    if !HasText(url) then Some(None)
    else match HeadersOf(lang, parse, headers)
      case None => None
      case Some(h) => Some(Some(Endpoint(url, OrElse(verb, defaultVerb), h)))
  }

  /** The configuration block of one source: none without endpoints, `None` when a header text does not parse. */
  function ConfigOf(lang: Language, parse: Parser, s: Source): (r: Option<seq<Step>>)
  {
    if s.receiveEndpoint == "" && s.updateEndpoint == "" then Some([])
    else
      var receive := EndpointOf(lang, parse, s.receiveEndpoint, s.receiveMethod, "GET", s.receiveHeaders);
      var update := EndpointOf(lang, parse, s.updateEndpoint, s.updateMethod, "POST", s.updateHeaders);
      if receive.None? || update.None? then None
      else Some([Configure(s.name, VarName(s.name), receive.value, update.value)])
  }

  /** The configuration section: the blocks of all sources in order; `None` as soon as one throws. */
  function ConfigSteps(lang: Language, parse: Parser, sources: seq<Source>): (r: Option<seq<Step>>)
    decreases |sources|
  {
    if sources == [] then Some([])
    else match ConfigSteps(lang, parse, sources[..|sources| - 1])
      case None => None
      case Some(steps) =>
        match ConfigOf(lang, parse, sources[|sources| - 1])
        case None => None
        case Some(block) => Some(steps + block)
  }

  /** `sources.find(s => s.id == text)`: loose equality compares the number the text spells. */
  function FindLoose(sources: seq<Source>, text: string): (r: Option<Source>)
  {
    match ParseNumber(text)
    case None => None
    case Some(n) => FindSource(sources, n)
  }

  /** The id a bucket adds to `sourcesToFetch`, if any. */
  function FetchCandidate(sources: seq<Source>, b: Bucket): (r: Option<int>)
  {
    match FindLoose(sources, SourceHalf(b.key))
    case None => None
    case Some(s) => if s.receiveEndpoint != "" then Some(s.id) else None
  }

  /** `sourcesToFetch`: the candidate ids of the buckets, each once, in insertion order. */
  function FetchIds(sources: seq<Source>, g: Buckets): (r: seq<int>)
    decreases |g|
  {
    if g == [] then []
    else
      var ids := FetchIds(sources, g[..|g| - 1]);
      match FetchCandidate(sources, g[|g| - 1])
      case None => ids
      case Some(id) => if id in ids then ids else ids + [id]
  }

  /** The fetch section: one fetch per id whose source is found. */
  function FetchSteps(sources: seq<Source>, ids: seq<int>): (r: seq<Step>)
    decreases |ids|
  {
    if ids == [] then []
    else
      var steps := FetchSteps(sources, ids[..|ids| - 1]);
      match FindSource(sources, ids[|ids| - 1])
      case None => steps
      case Some(s) => steps + [Fetch(s.id, s.name, VarName(s.name))]
  }

  /** One assignment per mapping, in stored order. */
  function Assigns(ms: seq<Mapping>, sourceVar: string): (r: seq<Step>)
    ensures |r| == |ms|
    ensures forall k :: 0 <= k < |r| ==> r[k] == Assign(ms[k].targetField, sourceVar, ms[k].sourceField)
  {
    seq(|ms|, k requires 0 <= k < |ms| => Assign(ms[k].targetField, sourceVar, ms[k].sourceField))
  }

  /** The target a bucket's key names, if it resolves. */
  function TargetOf(sources: seq<Source>, b: Bucket): (r: Option<Source>)
  {
    match TargetHalf(b.key)
    case None => None
    case Some(t) => FindLoose(sources, t)
  }

  /** Whether a bucket gets a transform/send block: both ids resolve and the source has a receive endpoint. */
  predicate Emits(sources: seq<Source>, b: Bucket)
  {
    var source := FindLoose(sources, SourceHalf(b.key));
    source.Some? && TargetOf(sources, b).Some? && source.value.receiveEndpoint != ""
  }

  /** The transform/send block of one bucket. */
  function BlockOf(sources: seq<Source>, b: Bucket): (r: seq<Step>)
  {
    if !Emits(sources, b) then []
    else
      var source := FindLoose(sources, SourceHalf(b.key)).value;
      var target := TargetOf(sources, b).value;
      [Transform(source.id, target.id, VarName(source.name))]
      + Assigns(b.mappings, VarName(source.name))
      + [Send(target.id, target.name, VarName(target.name))]
  }

  /** The mapping section: the blocks of all buckets in bucket order. */
  function Blocks(sources: seq<Source>, g: Buckets): (r: seq<Step>)
    decreases |g|
  {
    if g == [] then [] else Blocks(sources, g[..|g| - 1]) + BlockOf(sources, g[|g| - 1])
  }

  /** The whole plan of a generator run; `None` when a `JSON.parse` of a header text throws. */
  function Plan(lang: Language, parse: Parser, sources: seq<Source>, g: Buckets): (r: Option<seq<Step>>)
  {
    match ConfigSteps(lang, parse, sources)
    case None => None
    case Some(config) => Some(config + FetchSteps(sources, FetchIds(sources, g)) + Blocks(sources, g))
  }

  lemma {:induction false} ConfigStepsPrefix(lang: Language, parse: Parser, sources: seq<Source>, k: nat)
    requires k <= |sources|
    requires ConfigSteps(lang, parse, sources[..k]).None?
    ensures ConfigSteps(lang, parse, sources).None?
    decreases |sources| - k
  {
    if k < |sources| {
      assert sources[..k + 1][..k] == sources[..k];
      ConfigStepsPrefix(lang, parse, sources, k + 1);
    } else {
      assert sources[..k] == sources;
    }
  }

  /** The `sources.forEach` that writes the configuration blocks; `None` when a header text throws. */
  method ConfigureSources(lang: Language, parse: Parser, sources: seq<Source>) returns (config: Option<seq<Step>>)
    ensures config == ConfigSteps(lang, parse, sources)
  {
    var steps: seq<Step> := [];
    var i := 0;
    while i < |sources|
      invariant 0 <= i <= |sources|
      invariant ConfigSteps(lang, parse, sources[..i]) == Some(steps)
    {
      assert sources[..i + 1][..i] == sources[..i];
      var block := ConfigureSource(lang, parse, sources[i]);
      if block.None? {
        ConfigStepsPrefix(lang, parse, sources, i + 1);
        return None;
      }
      steps := steps + block.value;
      i := i + 1;
    }
    assert sources[..i] == sources;
    return Some(steps);
  }

  /** The configuration block of one source, or `None` when one of its header texts throws. */
  method ConfigureSource(lang: Language, parse: Parser, s: Source) returns (block: Option<seq<Step>>)
    ensures block == ConfigOf(lang, parse, s)
  {
    if s.receiveEndpoint == "" && s.updateEndpoint == "" {
      return Some([]);
    }
    var receive := ConfigureEndpoint(lang, parse, s.receiveEndpoint, s.receiveMethod, "GET", s.receiveHeaders);
    if receive.None? {
      return None;
    }
    var update := ConfigureEndpoint(lang, parse, s.updateEndpoint, s.updateMethod, "POST", s.updateHeaders);
    if update.None? {
      return None;
    }
    return Some([Configure(s.name, VarName(s.name), receive.value, update.value)]);
  }

  /** One endpoint of a configuration block: skipped without a URL, `None` when its headers throw. */
  method ConfigureEndpoint(lang: Language, parse: Parser, url: string, verb: string, defaultVerb: string, headerText: string)
    returns (endpoint: Option<Option<Endpoint>>)
    ensures endpoint == EndpointOf(lang, parse, url, verb, defaultVerb, headerText)
  {
    if url == "" || Trim(url) == "" {
      return Some(None);
    }
    var headers := if headerText != "" then parse(headerText) else Some(JObj([]));
    if headers.None? || (lang == Go && headers.value == JNull) {
      return None;
    }
    var chosen := if verb != "" then verb else defaultVerb;
    return Some(Some(Endpoint(url, chosen, headers.value)));
  }


  /** The `Object.keys(mappings).forEach` that fills the `sourcesToFetch` set. */
  method CollectFetchIds(sources: seq<Source>, g: Buckets) returns (toFetch: seq<int>)
    ensures toFetch == FetchIds(sources, g)
  {
    toFetch := [];
    var n := 0;
    while n < |g|
      invariant 0 <= n <= |g|
      invariant toFetch == FetchIds(sources, g[..n])
    {
      FetchIdsStep(sources, g, n);
      var candidate := FetchCandidate(sources, g[n]);
      if candidate.Some? && candidate.value !in toFetch {
        toFetch := toFetch + [candidate.value];
      }
      assert toFetch == FetchIds(sources, g[..n + 1]);
      n := n + 1;
    }
    assert g[..n] == g;
  }
  /** One bucket's contribution to `sourcesToFetch`: its candidate, unless already present. */
  lemma FetchIdsStep(sources: seq<Source>, g: Buckets, n: nat)
    requires n < |g|
    ensures var ids := FetchIds(sources, g[..n]);
            var c := FetchCandidate(sources, g[n]);
            FetchIds(sources, g[..n + 1]) == if c.Some? && c.value !in ids then ids + [c.value] else ids
  {
    assert g[..n + 1][..n] == g[..n];
  }


  /** The `sourcesToFetch.forEach` that writes one fetch per source. */
  method EmitFetches(sources: seq<Source>, toFetch: seq<int>) returns (fetches: seq<Step>)
    ensures fetches == FetchSteps(sources, toFetch)
  {
    fetches := [];
    var j := 0;
    while j < |toFetch|
      invariant 0 <= j <= |toFetch|
      invariant fetches == FetchSteps(sources, toFetch[..j])
    {
      assert toFetch[..j + 1][..j] == toFetch[..j];
      var source := FindSource(sources, toFetch[j]);
      if source.Some? {
        fetches := fetches + [Fetch(source.value.id, source.value.name, VarName(source.value.name))];
      }
      j := j + 1;
    }
    assert toFetch[..j] == toFetch;
  }

  /** The `Object.entries(mappings).forEach` that writes the transform/send blocks. */
  method EmitBlocks(sources: seq<Source>, g: Buckets) returns (blocks: seq<Step>)
    ensures blocks == Blocks(sources, g)
  {
    blocks := [];
    var n := 0;
    while n < |g|
      invariant 0 <= n <= |g|
      invariant blocks == Blocks(sources, g[..n])
    {
      assert g[..n + 1][..n] == g[..n];
      var block := EmitBlock(sources, g[n]);
      blocks := blocks + block;
      n := n + 1;
    }
    assert g[..n] == g;
  }

  /** The steps of one bucket: its transform, one assignment per mapping, and its send. */
  method EmitBlock(sources: seq<Source>, b: Bucket) returns (block: seq<Step>)
    ensures block == BlockOf(sources, b)
  {
    block := [];
    var source := FindLoose(sources, SourceHalf(b.key));
    var target := TargetOf(sources, b);
    if source.Some? && target.Some? && source.value.receiveEndpoint != "" {
      var sourceVar := VarName(source.value.name);
      var assigns := EmitAssigns(b.mappings, sourceVar);
      block := [Transform(source.value.id, target.value.id, sourceVar)] + assigns
        + [Send(target.value.id, target.value.name, VarName(target.value.name))];
    }
  }

  /** One assignment per mapping, in the bucket's order. */
  method EmitAssigns(ms: seq<Mapping>, sourceVar: string) returns (out: seq<Step>)
    ensures out == Assigns(ms, sourceVar)
  {
    out := [];
    var k := 0;
    while k < |ms|
      invariant 0 <= k <= |ms|
      invariant out == Assigns(ms[..k], sourceVar)
    {
      out := out + [Assign(ms[k].targetField, sourceVar, ms[k].sourceField)];
      k := k + 1;
    }
  }


  /** `generatePythonCode`, `generatePHPCode` or `generateGoCode`, which make the same choices but for Go's header check. */
  method GeneratePlan(lang: Language, parse: Parser, sources: seq<Source>, g: Buckets) returns (plan: Option<seq<Step>>)
    ensures plan == Plan(lang, parse, sources, g)
  {
    var config := ConfigureSources(lang, parse, sources);
    if config.None? {
      return None;
    }
    var toFetch := CollectFetchIds(sources, g);
    var fetches := EmitFetches(sources, toFetch);
    var blocks := EmitBlocks(sources, g);
    plan := Some(config.value + fetches + blocks);
  }

  // ---------------------------------------------------------------------
  // Configuration blocks
  // ---------------------------------------------------------------------

  predicate HasEndpoint(s: Source)
  {
    s.receiveEndpoint != "" || s.updateEndpoint != ""
  }

  /**
   * A source without endpoints gets no block. Otherwise its block names it,
   * holds a receive part exactly when the trimmed receive endpoint is
   * non-empty (method defaulting to GET) and an update part exactly when
   * the trimmed update endpoint is non-empty (method defaulting to POST).
   * It fails exactly when an emitted part's header text does not parse.
   */
  lemma ConfigBlock(lang: Language, parse: Parser, s: Source)
    ensures !HasEndpoint(s) ==> ConfigOf(lang, parse, s) == Some([])
    ensures ConfigOf(lang, parse, s).None? <==>
              HasEndpoint(s)
              && ((HasText(s.receiveEndpoint) && HeadersOf(lang, parse, s.receiveHeaders).None?)
                  || (HasText(s.updateEndpoint) && HeadersOf(lang, parse, s.updateHeaders).None?))
    ensures HasEndpoint(s) && ConfigOf(lang, parse, s).Some? ==>
              var steps := ConfigOf(lang, parse, s).value;
              |steps| == 1 && steps[0].Configure? && steps[0].sourceName == s.name && steps[0].variable == VarName(s.name)
              && (steps[0].receive.Some? <==> HasText(s.receiveEndpoint))
              && (steps[0].update.Some? <==> HasText(s.updateEndpoint))
              && (steps[0].receive.Some? ==>
                    steps[0].receive.value.url == s.receiveEndpoint
                    && steps[0].receive.value.verb == (if s.receiveMethod == "" then "GET" else s.receiveMethod))
              && (steps[0].update.Some? ==>
                    steps[0].update.value.url == s.updateEndpoint
                    && steps[0].update.value.verb == (if s.updateMethod == "" then "POST" else s.updateMethod))
  {
  }

  /** The sources that have an endpoint, in order. */
  function WithEndpoints(sources: seq<Source>): (r: seq<Source>)
    decreases |sources|
  {
    if sources == [] then []
    else WithEndpoints(sources[..|sources| - 1]) + (if HasEndpoint(sources[|sources| - 1]) then [sources[|sources| - 1]] else [])
  }

  /**
   * The configuration section succeeds exactly when every source's block
   * does, and then holds one block per source with an endpoint, in source
   * order.
   */
  lemma {:induction false} ConfigSection(lang: Language, parse: Parser, sources: seq<Source>)
    ensures ConfigSteps(lang, parse, sources).Some? <==> forall i :: 0 <= i < |sources| ==> ConfigOf(lang, parse, sources[i]).Some?
    ensures ConfigSteps(lang, parse, sources).Some? ==>
              var steps := ConfigSteps(lang, parse, sources).value;
              |steps| == |WithEndpoints(sources)|
              && forall k :: 0 <= k < |steps| ==> steps[k].Configure? && steps[k].sourceName == WithEndpoints(sources)[k].name
    decreases |sources|
  {
    if sources != [] {
      var init := sources[..|sources| - 1];
      var last := sources[|sources| - 1];
      ConfigSection(lang, parse, init);
      ConfigBlock(lang, parse, last);
      assert forall i :: 0 <= i < |init| ==> init[i] == sources[i];
      if ConfigSteps(lang, parse, sources).Some? {
        var steps := ConfigSteps(lang, parse, init).value;
        var block := ConfigOf(lang, parse, last).value;
        var w := WithEndpoints(init);
        assert ConfigSteps(lang, parse, sources).value == steps + block;
        assert WithEndpoints(sources) == w + (if HasEndpoint(last) then [last] else []);
      }
    }
  }

  // ---------------------------------------------------------------------
  // The fetch set
  // ---------------------------------------------------------------------

  /**
   * `sourcesToFetch` holds each id once, and holds exactly the ids some
   * bucket's source half resolves to, for sources with a receive endpoint.
   */
  lemma {:induction false} FetchIdsMembers(sources: seq<Source>, g: Buckets)
    ensures NoRepeats(FetchIds(sources, g))
    ensures forall id :: id in FetchIds(sources, g) <==> exists n :: 0 <= n < |g| && FetchCandidate(sources, g[n]) == Some(id)
    decreases |g|
  {
    if g != [] {
      var init := g[..|g| - 1];
      FetchIdsMembers(sources, init);
      assert forall n :: 0 <= n < |init| ==> init[n] == g[n];
      forall id ensures id in FetchIds(sources, g) <==> exists n :: 0 <= n < |g| && FetchCandidate(sources, g[n]) == Some(id) {
        if id in FetchIds(sources, g) && id !in FetchIds(sources, init) {
          assert FetchCandidate(sources, g[|g| - 1]) == Some(id);
        }
        if exists n :: 0 <= n < |g| && FetchCandidate(sources, g[n]) == Some(id) {
          var n :| 0 <= n < |g| && FetchCandidate(sources, g[n]) == Some(id);
          if n < |g| - 1 {
            assert FetchCandidate(sources, init[n]) == Some(id);
          }
        }
      }
    }
  }

  /** Insertion-ordered de-duplication of a sequence of optional ids, as a `Set` does it. */
  function Dedup(cs: seq<Option<int>>): (r: seq<int>)
    decreases |cs|
  {
    if cs == [] then []
    else
      var ids := Dedup(cs[..|cs| - 1]);
      match cs[|cs| - 1]
      case None => ids
      case Some(id) => if id in ids then ids else ids + [id]
  }

  function Candidates(sources: seq<Source>, g: Buckets): (cs: seq<Option<int>>)
    ensures |cs| == |g| && forall n :: 0 <= n < |g| ==> cs[n] == FetchCandidate(sources, g[n])
  {
    seq(|g|, n requires 0 <= n < |g| => FetchCandidate(sources, g[n]))
  }

  lemma {:induction false} FetchIdsDedup(sources: seq<Source>, g: Buckets)
    ensures FetchIds(sources, g) == Dedup(Candidates(sources, g))
    decreases |g|
  {
    if g != [] {
      FetchIdsDedup(sources, g[..|g| - 1]);
      assert Candidates(sources, g)[..|g| - 1] == Candidates(sources, g[..|g| - 1]);
    }
  }

  lemma {:induction false} DedupMembers(cs: seq<Option<int>>)
    ensures forall x :: x in Dedup(cs) <==> exists n :: 0 <= n < |cs| && cs[n] == Some(x)
    decreases |cs|
  {
    if cs != [] {
      var init := cs[..|cs| - 1];
      DedupMembers(init);
      assert forall n :: 0 <= n < |init| ==> init[n] == cs[n];
      forall x ensures x in Dedup(cs) <==> exists n :: 0 <= n < |cs| && cs[n] == Some(x) {
        if exists n :: 0 <= n < |cs| && cs[n] == Some(x) {
          var n :| 0 <= n < |cs| && cs[n] == Some(x);
          if n < |init| { assert init[n] == Some(x); }
        }
      }
    }
  }

  lemma {:induction false} DedupFirstSeen(cs: seq<Option<int>>, i: nat, j: nat, m: nat)
    requires i < j < |Dedup(cs)| && m < |cs| && cs[m] == Some(Dedup(cs)[j])
    ensures exists n :: 0 <= n < m && cs[n] == Some(Dedup(cs)[i])
    decreases |cs|
  {
    var init := cs[..|cs| - 1];
    var ids := Dedup(cs);
    var prev := Dedup(init);
    DedupMembers(init);
    assert forall n :: 0 <= n < |init| ==> init[n] == cs[n];
    var last := cs[|cs| - 1];
    assert ids == if last.Some? && last.value !in prev then prev + [last.value] else prev;
    assert ids[i] == prev[i];
    assert prev[i] in prev;
    var n0 :| 0 <= n0 < |init| && init[n0] == Some(prev[i]);
    if j < |prev| {
      assert ids[j] == prev[j];
      if m < |init| {
        assert init[m] == Some(prev[j]);
        DedupFirstSeen(init, i, j, m);
        var n :| 0 <= n < m && init[n] == Some(prev[i]);
        assert cs[n] == Some(ids[i]);
      } else {
        assert cs[n0] == Some(ids[i]);
      }
    } else {
      assert ids[j] !in prev;
      if m < |init| {
        assert false;
      }
      assert cs[n0] == Some(ids[i]);
    }
  }

  /**
   * First-seen order: an id that comes earlier in `sourcesToFetch` is
   * produced by some bucket before any bucket produces a later one.
   */
  lemma FetchIdsFirstSeen(sources: seq<Source>, g: Buckets)
    ensures var ids := FetchIds(sources, g);
            forall i, j, m :: 0 <= i < j < |ids| && 0 <= m < |g| && FetchCandidate(sources, g[m]) == Some(ids[j]) ==>
              exists n :: 0 <= n < m && FetchCandidate(sources, g[n]) == Some(ids[i])
  {
    var cs := Candidates(sources, g);
    FetchIdsDedup(sources, g);
    var ids := FetchIds(sources, g);
    forall i, j, m | 0 <= i < j < |ids| && 0 <= m < |g| && FetchCandidate(sources, g[m]) == Some(ids[j])
      ensures exists n :: 0 <= n < m && FetchCandidate(sources, g[n]) == Some(ids[i])
    {
      DedupFirstSeen(cs, i, j, m);
      var n :| 0 <= n < m && cs[n] == Some(ids[i]);
      assert FetchCandidate(sources, g[n]) == Some(ids[i]);
    }
  }

  /** Every id in `sourcesToFetch` resolves to a source with a receive endpoint. */
  lemma CandidateResolves(sources: seq<Source>, b: Bucket)
    ensures FetchCandidate(sources, b).Some? ==>
              var id := FetchCandidate(sources, b).value;
              FindSource(sources, id).Some? && FindSource(sources, id).value.receiveEndpoint != ""
  {
  }

  /** The fetch section fetches every id of `sourcesToFetch` once, in set order. */
  lemma {:induction false} FetchSection(sources: seq<Source>, ids: seq<int>)
    requires forall k :: 0 <= k < |ids| ==> FindSource(sources, ids[k]).Some?
    ensures var steps := FetchSteps(sources, ids);
            |steps| == |ids| && forall k :: 0 <= k < |ids| ==> steps[k].Fetch? && steps[k].sourceId == ids[k]
    decreases |ids|
  {
    if ids != [] {
      var init := ids[..|ids| - 1];
      assert forall k :: 0 <= k < |init| ==> init[k] == ids[k];
      FetchSection(sources, init);
      var prev := FetchSteps(sources, init);
      var src := FindSource(sources, ids[|ids| - 1]).value;
      assert FetchSteps(sources, ids) == prev + [Fetch(src.id, src.name, VarName(src.name))];
    }
  }

  lemma FetchIdsResolve(sources: seq<Source>, g: Buckets)
    ensures forall k :: 0 <= k < |FetchIds(sources, g)| ==> FindSource(sources, FetchIds(sources, g)[k]).Some?
  {
    FetchIdsMembers(sources, g);
    var ids := FetchIds(sources, g);
    forall k | 0 <= k < |ids| ensures FindSource(sources, ids[k]).Some? {
      assert ids[k] in ids;
      var n :| 0 <= n < |g| && FetchCandidate(sources, g[n]) == Some(ids[k]);
      CandidateResolves(sources, g[n]);
    }
  }

  // ---------------------------------------------------------------------
  // Transform/send blocks
  // ---------------------------------------------------------------------

  predicate IsBlockStep(st: Step)
  {
    st.Transform? || st.Assign? || st.Send?
  }

  /**
   * A bucket gets no block unless it emits; otherwise its block is one
   * transform from the source, one assignment per mapping in stored order,
   * and one send to the target.
   */
  lemma BlockShape(sources: seq<Source>, b: Bucket)
    ensures !Emits(sources, b) <==> BlockOf(sources, b) == []
    ensures Emits(sources, b) ==>
              var block := BlockOf(sources, b);
              var source := FindLoose(sources, SourceHalf(b.key)).value;
              var target := TargetOf(sources, b).value;
              && |block| == |b.mappings| + 2
              && block[0] == Transform(source.id, target.id, VarName(source.name))
              && (forall k :: 0 <= k < |b.mappings| ==>
                    block[k + 1] == Assign(b.mappings[k].targetField, VarName(source.name), b.mappings[k].sourceField))
              && block[|block| - 1] == Send(target.id, target.name, VarName(target.name))
              && FetchCandidate(sources, b) == Some(source.id)
  {
  }

  function CountSends(steps: seq<Step>): (r: nat)
    decreases |steps|
  {
    if steps == [] then 0 else CountSends(steps[..|steps| - 1]) + (if steps[|steps| - 1].Send? then 1 else 0)
  }

  function CountEmitting(sources: seq<Source>, g: Buckets): (r: nat)
    decreases |g|
  {
    if g == [] then 0 else CountEmitting(sources, g[..|g| - 1]) + (if Emits(sources, g[|g| - 1]) then 1 else 0)
  }

  lemma {:induction false} CountSendsAppend(a: seq<Step>, b: seq<Step>)
    ensures CountSends(a + b) == CountSends(a) + CountSends(b)
    decreases |b|
  {
    if b == [] {
      assert a + b == a;
    } else {
      var init := b[..|b| - 1];
      CountSendsAppend(a, init);
      assert (a + b)[..|a + b| - 1] == a + init;
    }
  }

  lemma {:induction false} AssignsHaveNoSends(ms: seq<Mapping>, sourceVar: string)
    ensures CountSends(Assigns(ms, sourceVar)) == 0
    decreases |ms|
  {
    if ms != [] {
      var init := ms[..|ms| - 1];
      AssignsHaveNoSends(init, sourceVar);
      assert Assigns(ms, sourceVar)[..|ms| - 1] == Assigns(init, sourceVar);
    }
  }

  /** The mapping section sends exactly once per emitting bucket. */
  lemma {:induction false} OneSendPerBucket(sources: seq<Source>, g: Buckets)
    ensures CountSends(Blocks(sources, g)) == CountEmitting(sources, g)
    decreases |g|
  {
    if g != [] {
      var init := g[..|g| - 1];
      var b := g[|g| - 1];
      OneSendPerBucket(sources, init);
      CountSendsAppend(Blocks(sources, init), BlockOf(sources, b));
      if Emits(sources, b) {
        var source := FindLoose(sources, SourceHalf(b.key)).value;
        var target := TargetOf(sources, b).value;
        var head := [Transform(source.id, target.id, VarName(source.name))];
        var mid := Assigns(b.mappings, VarName(source.name));
        var tail := [Send(target.id, target.name, VarName(target.name))];
        CountSendsAppend(head + mid, tail);
        CountSendsAppend(head, mid);
        AssignsHaveNoSends(b.mappings, VarName(source.name));
        assert CountSends(head) == 0 by { assert head[..0] == []; }
        assert CountSends(tail) == 1 by { assert tail[..0] == []; }
      }
    }
  }

  /** Each step of one block is a block step, and only its first is a transform, from the fetch candidate. */
  lemma BlockStep(sources: seq<Source>, b: Bucket, k: nat)
    requires k < |BlockOf(sources, b)|
    ensures IsBlockStep(BlockOf(sources, b)[k])
    ensures BlockOf(sources, b)[k].Transform? ==> FetchCandidate(sources, b) == Some(BlockOf(sources, b)[k].sourceId)
  {
    BlockShape(sources, b);
    var block := BlockOf(sources, b);
    if 0 < k < |block| - 1 {
      assert block[k] == Assign(b.mappings[k - 1].targetField, VarName(FindLoose(sources, SourceHalf(b.key)).value.name), b.mappings[k - 1].sourceField);
    }
  }

  /** Some bucket of `g` resolves to a fetch of `id`. */
  predicate IsCandidate(sources: seq<Source>, g: Buckets, id: int)
  {
    exists n :: 0 <= n < |g| && FetchCandidate(sources, g[n]) == Some(id)
  }

  lemma CandidateOfPrefix(sources: seq<Source>, g: Buckets, id: int)
    requires g != [] && IsCandidate(sources, g[..|g| - 1], id)
    ensures IsCandidate(sources, g, id)
  {
    var n :| 0 <= n < |g| - 1 && FetchCandidate(sources, g[..|g| - 1][n]) == Some(id);
    assert g[..|g| - 1][n] == g[n];
  }

  /** Every step of the mapping section is a block step, and every transform's source is a fetch candidate. */
  lemma {:induction false} BlocksFromCandidates(sources: seq<Source>, g: Buckets, j: nat)
    requires j < |Blocks(sources, g)|
    ensures IsBlockStep(Blocks(sources, g)[j])
    ensures Blocks(sources, g)[j].Transform? ==> IsCandidate(sources, g, Blocks(sources, g)[j].sourceId)
    decreases |g|
  {
    var init := g[..|g| - 1];
    var b := g[|g| - 1];
    var prev := Blocks(sources, init);
    var block := BlockOf(sources, b);
    var all := Blocks(sources, g);
    assert all == prev + block;
    if j < |prev| {
      assert all[j] == prev[j];
      BlocksFromCandidates(sources, init, j);
      if all[j].Transform? {
        CandidateOfPrefix(sources, g, prev[j].sourceId);
      }
    } else {
      LastBlockFromCandidate(sources, g, prev, block, j);
    }
  }

  /** A step of the last bucket's block is a block step, and a transform there is from that bucket's candidate. */
  lemma LastBlockFromCandidate(sources: seq<Source>, g: Buckets, prev: seq<Step>, block: seq<Step>, j: nat)
    requires g != [] && block == BlockOf(sources, g[|g| - 1])
    requires |prev| <= j < |prev| + |block|
    ensures IsBlockStep((prev + block)[j])
    ensures (prev + block)[j].Transform? ==> IsCandidate(sources, g, (prev + block)[j].sourceId)
  {
    var k := j - |prev|;
    assert (prev + block)[j] == block[k];
    BlockStep(sources, g[|g| - 1], k);
  }

  /** Three sections of configurations, fetches and block steps keep that order. */
  lemma SectionOrder(config: seq<Step>, fetches: seq<Step>, blocks: seq<Step>)
    requires forall k :: 0 <= k < |config| ==> config[k].Configure?
    requires forall k :: 0 <= k < |fetches| ==> fetches[k].Fetch?
    requires forall k :: 0 <= k < |blocks| ==> IsBlockStep(blocks[k])
    ensures var plan := config + fetches + blocks;
            forall i, j :: 0 <= i < |plan| && 0 <= j < |plan| && plan[i].Fetch? && IsBlockStep(plan[j]) ==> i < j
    ensures var plan := config + fetches + blocks;
            forall i, j :: 0 <= i < |plan| && 0 <= j < |plan| && plan[i].Configure? && !plan[j].Configure? ==> i < j
  {
    var plan := config + fetches + blocks;
    var c, f := |config|, |fetches|;
    assert forall i :: 0 <= i < c ==> plan[i] == config[i];
    assert forall i :: c <= i < c + f ==> plan[i] == fetches[i - c];
    assert forall i :: c + f <= i < |plan| ==> plan[i] == blocks[i - c - f];
  }

  /** The fetch section fetches each id of `sourcesToFetch`, in order, and only those. */
  lemma FetchSectionOfPlan(sources: seq<Source>, g: Buckets)
    ensures var ids := FetchIds(sources, g);
            var steps := FetchSteps(sources, ids);
            |steps| == |ids| && NoRepeats(ids)
            && (forall k :: 0 <= k < |ids| ==> steps[k].Fetch? && steps[k].sourceId == ids[k])
            && (forall id :: id in ids <==> IsCandidate(sources, g, id))
  {
    FetchIdsResolve(sources, g);
    FetchSection(sources, FetchIds(sources, g));
    FetchIdsMembers(sources, g);
  }

  /**
   * Configuration blocks come first, then the fetches, then the blocks:
   * every fetch precedes every transform, assignment and send.
   */
  lemma PlanOrder(lang: Language, parse: Parser, sources: seq<Source>, g: Buckets)
    requires Plan(lang, parse, sources, g).Some?
    ensures var plan := Plan(lang, parse, sources, g).value;
            forall i, j :: 0 <= i < |plan| && 0 <= j < |plan| && plan[i].Fetch? && IsBlockStep(plan[j]) ==> i < j
    ensures var plan := Plan(lang, parse, sources, g).value;
            forall i, j :: 0 <= i < |plan| && 0 <= j < |plan| && plan[i].Configure? && !plan[j].Configure? ==> i < j
  {
    var config := ConfigSteps(lang, parse, sources).value;
    var fetches := FetchSteps(sources, FetchIds(sources, g));
    var blocks := Blocks(sources, g);
    ConfigSection(lang, parse, sources);
    FetchSectionOfPlan(sources, g);
    forall k | 0 <= k < |blocks| ensures IsBlockStep(blocks[k]) {
      BlocksFromCandidates(sources, g, k);
    }
    SectionOrder(config, fetches, blocks);
  }

  /** The sections a plan is made of, with the facts the ordering lemmas need about each. */
  predicate Sections(config: seq<Step>, fetches: seq<Step>, blocks: seq<Step>, ids: seq<int>)
  {
    && (forall k :: 0 <= k < |config| ==> config[k].Configure?)
    && |fetches| == |ids| && NoRepeats(ids)
    && (forall k :: 0 <= k < |ids| ==> fetches[k].Fetch? && fetches[k].sourceId == ids[k])
    && (forall k :: 0 <= k < |blocks| ==> IsBlockStep(blocks[k]))
    && (forall k :: 0 <= k < |blocks| && blocks[k].Transform? ==> blocks[k].sourceId in ids)
  }

  lemma PlanSections(lang: Language, parse: Parser, sources: seq<Source>, g: Buckets)
    requires Plan(lang, parse, sources, g).Some?
    ensures var config := ConfigSteps(lang, parse, sources).value;
            var ids := FetchIds(sources, g);
            Plan(lang, parse, sources, g).value == config + FetchSteps(sources, ids) + Blocks(sources, g)
            && Sections(config, FetchSteps(sources, ids), Blocks(sources, g), ids)
  {
    var blocks := Blocks(sources, g);
    ConfigSection(lang, parse, sources);
    FetchSectionOfPlan(sources, g);
    forall k | 0 <= k < |blocks|
      ensures IsBlockStep(blocks[k]) && (blocks[k].Transform? ==> blocks[k].sourceId in FetchIds(sources, g))
    {
      BlocksFromCandidates(sources, g, k);
    }
  }

  lemma SectionFetchesOnce(config: seq<Step>, fetches: seq<Step>, blocks: seq<Step>, ids: seq<int>)
    requires Sections(config, fetches, blocks, ids)
    ensures var plan := config + fetches + blocks;
            forall i, j :: 0 <= i < j < |plan| && plan[i].Fetch? && plan[j].Fetch? ==> plan[i].sourceId != plan[j].sourceId
  {
    var plan := config + fetches + blocks;
    var c, f := |config|, |fetches|;
    assert forall i :: 0 <= i < c ==> plan[i] == config[i];
    assert forall i :: c <= i < c + f ==> plan[i] == fetches[i - c];
    assert forall i :: c + f <= i < |plan| ==> plan[i] == blocks[i - c - f];
    forall i, j | 0 <= i < j < |plan| && plan[i].Fetch? && plan[j].Fetch?
      ensures plan[i].sourceId != plan[j].sourceId
    {
      assert plan[i].sourceId == ids[i - c] && plan[j].sourceId == ids[j - c];
    }
  }

  lemma SectionTransformsFetched(config: seq<Step>, fetches: seq<Step>, blocks: seq<Step>, ids: seq<int>)
    requires Sections(config, fetches, blocks, ids)
    ensures var plan := config + fetches + blocks;
            forall j :: 0 <= j < |plan| && plan[j].Transform? ==>
              exists i :: 0 <= i < j && plan[i].Fetch? && plan[i].sourceId == plan[j].sourceId
  {
    var plan := config + fetches + blocks;
    var c, f := |config|, |fetches|;
    assert forall i :: 0 <= i < c ==> plan[i] == config[i];
    assert forall i :: c <= i < c + f ==> plan[i] == fetches[i - c];
    assert forall i :: c + f <= i < |plan| ==> plan[i] == blocks[i - c - f];
    forall j | 0 <= j < |plan| && plan[j].Transform?
      ensures exists i :: 0 <= i < j && plan[i].Fetch? && plan[i].sourceId == plan[j].sourceId
    {
      assert plan[j] == blocks[j - c - f];
      var k :| 0 <= k < |ids| && ids[k] == plan[j].sourceId;
      assert plan[c + k] == fetches[k];
    }
  }

  /** Each source is fetched at most once. */
  lemma PlanFetchesOnce(lang: Language, parse: Parser, sources: seq<Source>, g: Buckets)
    requires Plan(lang, parse, sources, g).Some?
    ensures var plan := Plan(lang, parse, sources, g).value;
            forall i, j :: 0 <= i < j < |plan| && plan[i].Fetch? && plan[j].Fetch? ==> plan[i].sourceId != plan[j].sourceId
  {
    PlanSections(lang, parse, sources, g);
    var ids := FetchIds(sources, g);
    SectionFetchesOnce(ConfigSteps(lang, parse, sources).value, FetchSteps(sources, ids), Blocks(sources, g), ids);
  }

  /** Every transform is preceded by a fetch of its own source. */
  lemma PlanTransformsFetched(lang: Language, parse: Parser, sources: seq<Source>, g: Buckets)
    requires Plan(lang, parse, sources, g).Some?
    ensures var plan := Plan(lang, parse, sources, g).value;
            forall j :: 0 <= j < |plan| && plan[j].Transform? ==>
              exists i :: 0 <= i < j && plan[i].Fetch? && plan[i].sourceId == plan[j].sourceId
  {
    PlanSections(lang, parse, sources, g);
    var ids := FetchIds(sources, g);
    SectionTransformsFetched(ConfigSteps(lang, parse, sources).value, FetchSteps(sources, ids), Blocks(sources, g), ids);
  }

  // ---------------------------------------------------------------------
  // Running the generated program
  // ---------------------------------------------------------------------

  /** What a run of the generated program reports. */
  datatype Event = Fetched(sourceId: int) | FetchFailed(sourceId: int) | Sent(targetId: int, ok: bool) | Crashed

  /** The names `<var>` whose `<var>_url`, `<var>_method` and `<var>_headers` the configuration blocks of `steps` define. */
  function ReceiveVars(steps: seq<Step>): (r: set<string>)
    decreases |steps|
  {
    if steps == [] then {}
    else
      var st := steps[|steps| - 1];
      ReceiveVars(steps[..|steps| - 1]) + (if st.Configure? && st.receive.Some? then {st.variable} else {})
  }

  /** The names `<var>` whose `<var>_update_url`, `<var>_update_method` and `<var>_update_headers` they define. */
  function UpdateVars(steps: seq<Step>): (r: set<string>)
    decreases |steps|
  {
    if steps == [] then {}
    else
      var st := steps[|steps| - 1];
      UpdateVars(steps[..|steps| - 1]) + (if st.Configure? && st.update.Some? then {st.variable} else {})
  }

  /**
   * How the requests of one run go: the sources whose fetch gets a 2xx
   * status, the sources whose fetch raises in Python (the request raises,
   * or `response.json()` raises on a 2xx body that is not JSON), the
   * targets whose send gets a 2xx status, and the targets whose send
   * request raises (no connection, a timeout, a URL without a scheme).
   * In PHP and Go a request error comes back as a failed status and a body
   * that is not JSON decodes to null, so there only `fetchOk` counts.
   */
  datatype Outcomes = Outcomes(fetchOk: set<int>, fetchRaises: set<int>, sendOk: set<int>, sendRaises: set<int>)

  /** Whether a request that raises ends the run: Python's `requests` raises, PHP's curl and Go report an error. */
  predicate RaiseEndsRun(lang: Language)
  {
    lang == Python
  }

  /**
   * A run of the generated `integrate()`. A fetch or a send naming a
   * variable that no configuration block defined raises (Python's
   * `NameError`, caught by the `except` around `integrate()`; PHP's
   * `TypeError` from `array_keys(null)`), and the run ends there. A fetch
   * that raises ends a Python run the same way; a fetch that gets another
   * status prints a failure and returns. A send
   * whose request raises ends a Python run and is a failed send elsewhere;
   * a send that gets another status prints a failure and the run goes on.
   */
  function Run(lang: Language, steps: seq<Step>, receiveVars: set<string>, updateVars: set<string>, out: Outcomes): (r: seq<Event>)
    decreases |steps|
  {
    if steps == [] then []
    else match steps[0]
      case Fetch(id, _, v) =>
        if v !in receiveVars then [Crashed]
        else if id in out.fetchRaises && RaiseEndsRun(lang) then [Crashed]
        else if id in out.fetchOk then [Fetched(id)] + Run(lang, steps[1..], receiveVars, updateVars, out)
        else [FetchFailed(id)]
      case Send(t, _, v) =>
        if v !in updateVars then [Crashed]
        else if t in out.sendRaises && RaiseEndsRun(lang) then [Sent(t, false), Crashed]
        else [Sent(t, t in out.sendOk && t !in out.sendRaises)] + Run(lang, steps[1..], receiveVars, updateVars, out)
      case _ => Run(lang, steps[1..], receiveVars, updateVars, out)
  }

  /** A run of a whole generated program, whose configuration section defines the variables. */
  function RunPlan(lang: Language, plan: seq<Step>, out: Outcomes): (r: seq<Event>)
  {
    Run(lang, plan, ReceiveVars(plan), UpdateVars(plan), out)
  }

  /** Every fetch and every send of `steps` names variables in `receiveVars` and `updateVars`. */
  predicate DefinesAll(steps: seq<Step>, receiveVars: set<string>, updateVars: set<string>)
  {
    forall k :: 0 <= k < |steps| ==>
      && (steps[k].Fetch? ==> steps[k].variable in receiveVars)
      && (steps[k].Send? ==> steps[k].targetVar in updateVars)
  }

  /** No fetch and no send of `steps` ends the run by raising. */
  predicate NoEndingRaise(lang: Language, steps: seq<Step>, out: Outcomes)
  {
    RaiseEndsRun(lang) ==> forall k :: 0 <= k < |steps| ==>
      && (steps[k].Fetch? ==> steps[k].sourceId !in out.fetchRaises)
      && (steps[k].Send? ==> steps[k].targetId !in out.sendRaises)
  }

  /** The fetch `st` ends the run: its variables are undefined, it fails, or it raises in Python. */
  predicate FetchEnds(lang: Language, st: Step, rv: set<string>, out: Outcomes)
    requires st.Fetch?
  {
    st.variable !in rv || st.sourceId !in out.fetchOk || (st.sourceId in out.fetchRaises && RaiseEndsRun(lang))
  }

  function CountSent(events: seq<Event>): (r: nat)
    decreases |events|
  {
    if events == [] then 0 else (if events[0].Sent? then 1 else 0) + CountSent(events[1..])
  }

  /** Steps counted from the front, to match `Run`. */
  function CountSendsFront(steps: seq<Step>): (r: nat)
    decreases |steps|
  {
    if steps == [] then 0 else (if steps[0].Send? then 1 else 0) + CountSendsFront(steps[1..])
  }

  /**
   * When every fetch succeeds, every variable is defined and no fetch or
   * send ends the run by raising, every send is attempted, whichever sends
   * fail.
   */
  lemma {:induction false} SendsContinue(lang: Language, steps: seq<Step>, rv: set<string>, uv: set<string>, out: Outcomes)
    requires forall i :: 0 <= i < |steps| && steps[i].Fetch? ==> steps[i].sourceId in out.fetchOk
    requires DefinesAll(steps, rv, uv)
    requires NoEndingRaise(lang, steps, out)
    ensures CountSent(Run(lang, steps, rv, uv, out)) == CountSendsFront(steps)
    decreases |steps|
  {
    if steps != [] {
      assert forall i :: 0 <= i < |steps| - 1 ==> steps[1..][i] == steps[i + 1];
      SendsContinue(lang, steps[1..], rv, uv, out);
      var e := Run(lang, steps[1..], rv, uv, out);
      assert steps[0] == steps[0];
      match steps[0]
      case Fetch(id, _, _) => assert ([Fetched(id)] + e)[1..] == e;
      case Send(t, _, _) => assert ([Sent(t, t in out.sendOk && t !in out.sendRaises)] + e)[1..] == e;
      case _ =>
    }
  }

  /** A fetch that fails or raises, with no send before it, ends the run before any send. */
  lemma {:induction false} FetchFailureAborts(lang: Language, steps: seq<Step>, rv: set<string>, uv: set<string>, out: Outcomes, k: nat)
    requires k < |steps| && steps[k].Fetch? && FetchEnds(lang, steps[k], rv, out)
    requires forall i :: 0 <= i < k ==> !steps[i].Send?
    ensures CountSent(Run(lang, steps, rv, uv, out)) == 0
    decreases k
  {
    if k > 0 {
      assert forall i :: 0 <= i < k - 1 ==> steps[1..][i] == steps[i + 1];
      assert steps[1..][k - 1] == steps[k];
      FetchFailureAborts(lang, steps[1..], rv, uv, out, k - 1);
      var e := Run(lang, steps[1..], rv, uv, out);
      match steps[0]
      case Fetch(id, _, v) =>
        if v in rv && !(id in out.fetchRaises && RaiseEndsRun(lang)) && id in out.fetchOk { assert ([Fetched(id)] + e)[1..] == e; }
      case _ =>
    }
  }

  /**
   * A step that ends the run — a step naming an undefined variable, or in
   * Python a fetch or send whose request raises — lets only the sends up
   * to it happen.
   */
  lemma {:induction false} CrashStops(lang: Language, steps: seq<Step>, rv: set<string>, uv: set<string>, out: Outcomes, k: nat)
    requires k < |steps|
    requires || (steps[k].Fetch? && steps[k].variable !in rv)
             || (steps[k].Fetch? && steps[k].sourceId in out.fetchRaises && RaiseEndsRun(lang))
             || (steps[k].Send? && steps[k].targetVar !in uv)
             || (steps[k].Send? && steps[k].targetId in out.sendRaises && RaiseEndsRun(lang))
    ensures CountSent(Run(lang, steps, rv, uv, out)) <= CountSendsFront(steps[..k + 1])
    ensures !(steps[k].Send? && steps[k].targetVar in uv) ==> CountSent(Run(lang, steps, rv, uv, out)) <= CountSendsFront(steps[..k])
    decreases k
  {
    if k > 0 {
      assert steps[1..][k - 1] == steps[k];
      CrashStops(lang, steps[1..], rv, uv, out, k - 1);
      assert steps[..k][1..] == steps[1..][..k - 1];
      assert steps[..k + 1][1..] == steps[1..][..k];
      var e := Run(lang, steps[1..], rv, uv, out);
      match steps[0]
      case Fetch(id, _, v) =>
        if v in rv && !(id in out.fetchRaises && RaiseEndsRun(lang)) && id in out.fetchOk { assert ([Fetched(id)] + e)[1..] == e; }
      case Send(t, _, v) =>
        if v in uv && !(t in out.sendRaises && RaiseEndsRun(lang)) {
          assert ([Sent(t, t in out.sendOk && t !in out.sendRaises)] + e)[1..] == e;
        } else if v in uv {
          assert [Sent(t, false), Crashed][1..] == [Crashed] && [Crashed][1..] == [];
        }
      case _ =>
    } else {
      if steps[0].Send? && steps[0].targetVar in uv {
        assert [Sent(steps[0].targetId, false), Crashed][1..] == [Crashed] && [Crashed][1..] == [];
        assert steps[..1][1..] == [];
      }
    }
  }

  /** In a generated program, one fetch that fails or raises means no data is sent at all. */
  lemma PlanFetchFailure(lang: Language, parse: Parser, sources: seq<Source>, g: Buckets, out: Outcomes, k: nat)
    requires Plan(lang, parse, sources, g).Some?
    requires k < |Plan(lang, parse, sources, g).value|
    requires var plan := Plan(lang, parse, sources, g).value;
             plan[k].Fetch? && FetchEnds(lang, plan[k], ReceiveVars(plan), out)
    ensures CountSent(RunPlan(lang, Plan(lang, parse, sources, g).value, out)) == 0
  {
    var plan := Plan(lang, parse, sources, g).value;
    PlanOrder(lang, parse, sources, g);
    FetchFailureAborts(lang, plan, ReceiveVars(plan), UpdateVars(plan), out, k);
  }

  lemma {:induction false} CountSendsBothWays(steps: seq<Step>)
    ensures CountSendsFront(steps) == CountSends(steps)
    decreases |steps|
  {
    if steps != [] {
      CountSendsBothWays(steps[1..]);
      CountSendsAppend([steps[0]], steps[1..]);
      assert [steps[0]] + steps[1..] == steps;
      assert [steps[0]][..0] == [];
    }
  }

  lemma {:induction false} NoSends(steps: seq<Step>)
    requires forall k :: 0 <= k < |steps| ==> !steps[k].Send?
    ensures CountSends(steps) == 0
    decreases |steps|
  {
    if steps != [] {
      NoSends(steps[..|steps| - 1]);
    }
  }

  /** A generated program holds one send per bucket that got a block. */
  lemma PlanSendCount(lang: Language, parse: Parser, sources: seq<Source>, g: Buckets)
    requires Plan(lang, parse, sources, g).Some?
    ensures CountSends(Plan(lang, parse, sources, g).value) == CountEmitting(sources, g)
  {
    PlanSections(lang, parse, sources, g);
    var config := ConfigSteps(lang, parse, sources).value;
    var fetches := FetchSteps(sources, FetchIds(sources, g));
    var blocks := Blocks(sources, g);
    CountSendsAppend(config + fetches, blocks);
    CountSendsAppend(config, fetches);
    NoSends(config);
    NoSends(fetches);
    OneSendPerBucket(sources, g);
  }

  lemma SectionFetchesOk(config: seq<Step>, fetches: seq<Step>, blocks: seq<Step>, ids: seq<int>, fetchOk: set<int>)
    requires Sections(config, fetches, blocks, ids)
    requires forall id :: id in ids ==> id in fetchOk
    ensures var plan := config + fetches + blocks;
            forall i :: 0 <= i < |plan| && plan[i].Fetch? ==> plan[i].sourceId in fetchOk
  {
    var plan := config + fetches + blocks;
    var c, f := |config|, |fetches|;
    assert forall i :: 0 <= i < c ==> plan[i] == config[i];
    assert forall i :: c <= i < c + f ==> plan[i] == fetches[i - c];
    assert forall i :: c + f <= i < |plan| ==> plan[i] == blocks[i - c - f];
    forall i | 0 <= i < |plan| && plan[i].Fetch? ensures plan[i].sourceId in fetchOk {
      assert plan[i].sourceId == ids[i - c];
    }
  }

  /**
   * When every fetch of a generated program succeeds, every variable it
   * names is defined and no send ends the run by raising, it attempts one
   * send per bucket that got a block, whether or not the sends succeed.
   */
  lemma PlanSendsAll(lang: Language, parse: Parser, sources: seq<Source>, g: Buckets, out: Outcomes)
    requires Plan(lang, parse, sources, g).Some?
    requires forall id :: id in FetchIds(sources, g) ==> id in out.fetchOk
    requires var plan := Plan(lang, parse, sources, g).value; DefinesAll(plan, ReceiveVars(plan), UpdateVars(plan))
    requires NoEndingRaise(lang, Plan(lang, parse, sources, g).value, out)
    ensures CountSent(RunPlan(lang, Plan(lang, parse, sources, g).value, out)) == CountEmitting(sources, g)
  {
    var plan := Plan(lang, parse, sources, g).value;
    PlanSections(lang, parse, sources, g);
    var ids := FetchIds(sources, g);
    SectionFetchesOk(ConfigSteps(lang, parse, sources).value, FetchSteps(sources, ids), Blocks(sources, g), ids, out.fetchOk);
    SendsContinue(lang, plan, ReceiveVars(plan), UpdateVars(plan), out);
    CountSendsBothWays(plan);
    PlanSendCount(lang, parse, sources, g);
  }

  /** The sends of a split list add up, counted from the front. */
  lemma SplitSends(steps: seq<Step>, k: nat)
    requires k < |steps|
    ensures CountSendsFront(steps) == CountSendsFront(steps[..k + 1]) + CountSendsFront(steps[k + 1..])
    ensures CountSendsFront(steps[..k + 1]) == CountSendsFront(steps[..k]) + (if steps[k].Send? then 1 else 0)
  {
    CountSendsBothWays(steps);
    CountSendsBothWays(steps[..k]);
    CountSendsBothWays(steps[..k + 1]);
    CountSendsBothWays(steps[k + 1..]);
    assert steps[..k + 1] + steps[k + 1..] == steps;
    CountSendsAppend(steps[..k + 1], steps[k + 1..]);
    assert steps[..k + 1][..k] == steps[..k];
  }

  /**
   * A send whose target has no update variables raises, so the program
   * attempts fewer sends than it has blocks, however the requests go.
   */
  lemma PlanSendCrash(lang: Language, parse: Parser, sources: seq<Source>, g: Buckets, out: Outcomes, k: nat)
    requires Plan(lang, parse, sources, g).Some?
    requires k < |Plan(lang, parse, sources, g).value|
    requires var plan := Plan(lang, parse, sources, g).value; plan[k].Send? && plan[k].targetVar !in UpdateVars(plan)
    ensures CountSent(RunPlan(lang, Plan(lang, parse, sources, g).value, out)) < CountEmitting(sources, g)
  {
    var plan := Plan(lang, parse, sources, g).value;
    CrashStops(lang, plan, ReceiveVars(plan), UpdateVars(plan), out, k);
    SplitSends(plan, k);
    CountSendsBothWays(plan);
    PlanSendCount(lang, parse, sources, g);
  }

  /**
   * In a Python program, a send whose request raises ends the run: when a
   * later block has a send, fewer sends are attempted than there are
   * blocks. PHP and Go programs go on to the next block.
   */
  lemma PlanSendRaise(lang: Language, parse: Parser, sources: seq<Source>, g: Buckets, out: Outcomes, k: nat, later: nat)
    requires Plan(lang, parse, sources, g).Some?
    requires k < later < |Plan(lang, parse, sources, g).value|
    requires var plan := Plan(lang, parse, sources, g).value;
             plan[k].Send? && plan[k].targetId in out.sendRaises && plan[later].Send?
    requires RaiseEndsRun(lang)
    ensures CountSent(RunPlan(lang, Plan(lang, parse, sources, g).value, out)) < CountEmitting(sources, g)
  {
    var plan := Plan(lang, parse, sources, g).value;
    CrashStops(lang, plan, ReceiveVars(plan), UpdateVars(plan), out, k);
    SplitSends(plan, k);
    var rest := plan[k + 1..];
    assert rest[later - k - 1] == plan[later];
    SendsPositive(rest, later - k - 1);
    CountSendsBothWays(plan);
    PlanSendCount(lang, parse, sources, g);
  }

  lemma {:induction false} SendsPositive(steps: seq<Step>, i: nat)
    requires i < |steps| && steps[i].Send?
    ensures CountSendsFront(steps) > 0
    decreases i
  {
    if i > 0 {
      assert steps[1..][i - 1] == steps[i];
      SendsPositive(steps[1..], i - 1);
    }
  }

  lemma {:induction false} VarsAppend(a: seq<Step>, b: seq<Step>)
    ensures ReceiveVars(a + b) == ReceiveVars(a) + ReceiveVars(b)
    ensures UpdateVars(a + b) == UpdateVars(a) + UpdateVars(b)
    decreases |b|
  {
    if b == [] {
      assert a + b == a;
    } else {
      var init := b[..|b| - 1];
      VarsAppend(a, init);
      assert (a + b)[..|a + b| - 1] == a + init;
    }
  }

  lemma {:induction false} NoConfigureNoVars(steps: seq<Step>)
    requires forall k :: 0 <= k < |steps| ==> !steps[k].Configure?
    ensures ReceiveVars(steps) == {} && UpdateVars(steps) == {}
    decreases |steps|
  {
    if steps != [] {
      NoConfigureNoVars(steps[..|steps| - 1]);
    }
  }

  /** Some source whose trimmed receive endpoint is non-empty has variable name `v`. */
  predicate ConfiguresReceive(sources: seq<Source>, v: string)
  {
    exists i :: 0 <= i < |sources| && HasText(sources[i].receiveEndpoint) && VarName(sources[i].name) == v
  }

  /** Some source whose trimmed update endpoint is non-empty has variable name `v`. */
  predicate ConfiguresUpdate(sources: seq<Source>, v: string)
  {
    exists i :: 0 <= i < |sources| && HasText(sources[i].updateEndpoint) && VarName(sources[i].name) == v
  }

  /** One source's configuration block defines its variables exactly for the parts it emits. */
  lemma BlockVars(lang: Language, parse: Parser, s: Source)
    requires ConfigOf(lang, parse, s).Some?
    ensures ReceiveVars(ConfigOf(lang, parse, s).value) == if HasText(s.receiveEndpoint) then {VarName(s.name)} else {}
    ensures UpdateVars(ConfigOf(lang, parse, s).value) == if HasText(s.updateEndpoint) then {VarName(s.name)} else {}
  {
    var block := ConfigOf(lang, parse, s).value;
    ConfigBlock(lang, parse, s);
    if block != [] {
      assert block[..0] == [];
    }
  }

  lemma ConfiguresSnoc(init: seq<Source>, last: Source, v: string)
    ensures ConfiguresReceive(init + [last], v) <==> ConfiguresReceive(init, v) || (HasText(last.receiveEndpoint) && VarName(last.name) == v)
    ensures ConfiguresUpdate(init + [last], v) <==> ConfiguresUpdate(init, v) || (HasText(last.updateEndpoint) && VarName(last.name) == v)
  {
    var sources := init + [last];
    if ConfiguresReceive(sources, v) {
      var i :| 0 <= i < |sources| && HasText(sources[i].receiveEndpoint) && VarName(sources[i].name) == v;
      if i < |init| { assert init[i] == sources[i]; }
    }
    if ConfiguresReceive(init, v) {
      var i :| 0 <= i < |init| && HasText(init[i].receiveEndpoint) && VarName(init[i].name) == v;
      assert sources[i] == init[i];
    }
    if HasText(last.receiveEndpoint) && VarName(last.name) == v {
      assert sources[|init|] == last;
    }
    if ConfiguresUpdate(sources, v) {
      var i :| 0 <= i < |sources| && HasText(sources[i].updateEndpoint) && VarName(sources[i].name) == v;
      if i < |init| { assert init[i] == sources[i]; }
    }
    if ConfiguresUpdate(init, v) {
      var i :| 0 <= i < |init| && HasText(init[i].updateEndpoint) && VarName(init[i].name) == v;
      assert sources[i] == init[i];
    }
    if HasText(last.updateEndpoint) && VarName(last.name) == v {
      assert sources[|init|] == last;
    }
  }

  /** The configuration section defines the variables of the sources whose trimmed endpoints are non-empty, and no others. */
  lemma {:induction false} ConfigVars(lang: Language, parse: Parser, sources: seq<Source>, v: string)
    requires ConfigSteps(lang, parse, sources).Some?
    ensures v in ReceiveVars(ConfigSteps(lang, parse, sources).value) <==> ConfiguresReceive(sources, v)
    ensures v in UpdateVars(ConfigSteps(lang, parse, sources).value) <==> ConfiguresUpdate(sources, v)
    decreases |sources|
  {
    if sources != [] {
      var init := sources[..|sources| - 1];
      var last := sources[|sources| - 1];
      var steps := ConfigSteps(lang, parse, init).value;
      var block := ConfigOf(lang, parse, last).value;
      ConfigVars(lang, parse, init, v);
      BlockVars(lang, parse, last);
      VarsAppend(steps, block);
      assert ConfigSteps(lang, parse, sources).value == steps + block;
      ConfiguresSnoc(init, last, v);
      assert init + [last] == sources;
    }
  }

  /**
   * The variables a generated program defines: `<var>_url` and its kin for
   * every source whose trimmed receive endpoint is non-empty, and
   * `<var>_update_url` and its kin for every source whose trimmed update
   * endpoint is. A fetch of a source whose receive endpoint is only
   * whitespace, or a send to a target without an update endpoint, names
   * variables outside these unless another source shares the name.
   */
  lemma PlanVars(lang: Language, parse: Parser, sources: seq<Source>, g: Buckets, v: string)
    requires Plan(lang, parse, sources, g).Some?
    ensures v in ReceiveVars(Plan(lang, parse, sources, g).value) <==> ConfiguresReceive(sources, v)
    ensures v in UpdateVars(Plan(lang, parse, sources, g).value) <==> ConfiguresUpdate(sources, v)
  {
    PlanSections(lang, parse, sources, g);
    var ids := FetchIds(sources, g);
    SectionVars(ConfigSteps(lang, parse, sources).value, FetchSteps(sources, ids), Blocks(sources, g), ids);
    ConfigVars(lang, parse, sources, v);
  }

  /** Only the configuration section defines variables. */
  lemma SectionVars(config: seq<Step>, fetches: seq<Step>, blocks: seq<Step>, ids: seq<int>)
    requires Sections(config, fetches, blocks, ids)
    ensures ReceiveVars(config + fetches + blocks) == ReceiveVars(config)
    ensures UpdateVars(config + fetches + blocks) == UpdateVars(config)
  {
    var rest: seq<Step> := fetches + blocks;
    forall k | 0 <= k < |rest| ensures !rest[k].Configure? {
      if k < |fetches| { assert rest[k] == fetches[k]; } else { assert rest[k] == blocks[k - |fetches|]; }
    }
    NoConfigureNoVars(rest);
    assert config + fetches + blocks == config + rest;
    VarsAppend(config, rest);
  }

  // ---------------------------------------------------------------------
  // renderCode
  // ---------------------------------------------------------------------

  /** `container.dataset.selectedLanguage || 'python'` and the `switch` with its Python default. */
  function LanguageOf(selected: string): (l: Language)
    ensures selected == "php" <==> l == Php
    ensures selected == "go" <==> l == Go
    ensures selected != "php" && selected != "go" ==> l == Python
  {
    if selected == "php" then Php else if selected == "go" then Go else Python
  }

  /** What `renderCode` does: shows the placeholder or a generated program, or throws before writing, leaving the previous output. */
  datatype Rendered = Placeholder | Generated(language: Language, plan: seq<Step>) | Threw

  function RenderCode(parse: Parser, sources: seq<Source>, g: Buckets, selected: string): (r: Rendered)
    ensures r == Placeholder <==> sources == [] || g == []
    ensures r.Generated? ==> r.language == LanguageOf(selected) && Plan(LanguageOf(selected), parse, sources, g) == Some(r.plan)
    ensures r == Threw <==> sources != [] && g != [] && Plan(LanguageOf(selected), parse, sources, g).None?
  {
    if sources == [] || g == [] then Placeholder
    else match Plan(LanguageOf(selected), parse, sources, g)
      case None => Threw
      case Some(plan) => Generated(LanguageOf(selected), plan)
  }

  /** An unknown or missing language shows exactly what Python shows. */
  lemma UnknownLanguageIsPython(parse: Parser, sources: seq<Source>, g: Buckets, selected: string)
    requires selected != "php" && selected != "go"
    ensures RenderCode(parse, sources, g, selected) == RenderCode(parse, sources, g, "python")
  {
  }

  /** Some part `s` emits has a header text that parses to `null`. */
  predicate NullHeaders(parse: Parser, s: Source)
  {
    || (HasText(s.receiveEndpoint) && s.receiveHeaders != "" && parse(s.receiveHeaders) == Some(JNull))
    || (HasText(s.updateEndpoint) && s.updateHeaders != "" && parse(s.updateHeaders) == Some(JNull))
  }

  /** The Python and PHP generators build the same block; the Go generator builds it too, unless a header text is `null`. */
  lemma BlockAgrees(parse: Parser, s: Source)
    ensures ConfigOf(Python, parse, s) == ConfigOf(Php, parse, s)
    ensures ConfigOf(Go, parse, s).Some? ==> ConfigOf(Go, parse, s) == ConfigOf(Python, parse, s)
    ensures ConfigOf(Go, parse, s).None? <==> ConfigOf(Python, parse, s).None? || NullHeaders(parse, s)
  {
    ConfigBlock(Python, parse, s);
    ConfigBlock(Go, parse, s);
  }

  /**
   * The three generators make the same plan, except that the Go generator
   * throws when an emitted header text is `null`, where `Object.entries`
   * throws and the Python and PHP generators print `null`.
   */
  lemma {:induction false} LanguagesAgree(parse: Parser, sources: seq<Source>, g: Buckets)
    ensures Plan(Python, parse, sources, g) == Plan(Php, parse, sources, g)
    ensures Plan(Go, parse, sources, g).Some? ==> Plan(Go, parse, sources, g) == Plan(Python, parse, sources, g)
    ensures Plan(Go, parse, sources, g).None? <==>
              Plan(Python, parse, sources, g).None? || exists i :: 0 <= i < |sources| && NullHeaders(parse, sources[i])
  {
    ConfigAgrees(parse, sources);
  }

  lemma {:induction false} ConfigAgrees(parse: Parser, sources: seq<Source>)
    ensures ConfigSteps(Python, parse, sources) == ConfigSteps(Php, parse, sources)
    ensures ConfigSteps(Go, parse, sources).Some? ==> ConfigSteps(Go, parse, sources) == ConfigSteps(Python, parse, sources)
    ensures ConfigSteps(Go, parse, sources).None? <==>
              ConfigSteps(Python, parse, sources).None? || exists i :: 0 <= i < |sources| && NullHeaders(parse, sources[i])
    decreases |sources|
  {
    if sources != [] {
      var init := sources[..|sources| - 1];
      var last := sources[|sources| - 1];
      ConfigAgrees(parse, init);
      BlockAgrees(parse, last);
      assert forall i :: 0 <= i < |init| ==> init[i] == sources[i];
      assert (exists i :: 0 <= i < |sources| && NullHeaders(parse, sources[i])) <==>
               (exists i :: 0 <= i < |init| && NullHeaders(parse, init[i])) || NullHeaders(parse, last);
    }
  }

  /** With `go` selected, a `null` header text makes `renderCode` throw, leaving the previous output, where Python and PHP show a program or throw alike. */
  lemma GoNullThrows(parse: Parser, sources: seq<Source>, g: Buckets, i: nat)
    requires i < |sources| && NullHeaders(parse, sources[i]) && g != []
    ensures RenderCode(parse, sources, g, "go") == Threw
    ensures RenderCode(parse, sources, g, "python").Generated? <==> RenderCode(parse, sources, g, "php").Generated?
    ensures RenderCode(parse, sources, g, "python").Generated? ==>
              RenderCode(parse, sources, g, "python").plan == RenderCode(parse, sources, g, "php").plan
  {
    LanguagesAgree(parse, sources, g);
  }
}

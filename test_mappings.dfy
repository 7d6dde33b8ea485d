/**
 * The mapping simulator of the testing panel: for every bucket of the
 * mapping graph it builds the payload the target would receive, by
 * reading each mapping's source field out of the source's example
 * response along a dotted path and writing it into the payload along the
 * target field's dotted path. Also the button-state decision and the HTML
 * escaping of the shown payload.
 */
module MappingSimulator {
  import opened Wrappers
  import opened Strings
  import opened JsonValues
  import opened MappingGraph
  import opened SourceRegistry

  // ---------------------------------------------------------------------
  // safeParseJson
  // ---------------------------------------------------------------------

  /** `safeParseJson(str)`: `null` for an empty text or one `JSON.parse` rejects. */
  function SafeParseJson(parse: Parser, text: string): (r: Json)
    ensures text == "" ==> r == JNull
    ensures text != "" && parse(text).None? ==> r == JNull
    ensures text != "" && parse(text).Some? ==> r == parse(text).value
  {
    if text == "" then JNull
    else match parse(text)
      case None => JNull
      case Some(j) => j
  }

  // ---------------------------------------------------------------------
  // getNestedValueV1
  // ---------------------------------------------------------------------

  /**
   * Walking `parts` from `cur`: each step needs a truthy current value with
   * an own property of that name; `None` is `undefined`.
   */
  function Walk(cur: Json, parts: seq<string>): (r: Option<Json>)
    decreases |parts|
  {
    if parts == [] then Some(cur)
    else if Truthy(cur) && OwnProperty(cur, parts[0]).Some? then Walk(OwnProperty(cur, parts[0]).value, parts[1..])
    else None
  }

  /** `getNestedValueV1(obj, path)`. */
  function GetNested(obj: Json, path: string): (r: Option<Json>)
    ensures !Truthy(obj) || path == "" ==> r.None?
  {
    if !Truthy(obj) || path == "" then None else Walk(obj, Split(path, "."))
  }

  /** The imperative walk with a moving cursor, as the source writes it. */
  method GetNestedValue(obj: Json, path: string) returns (r: Option<Json>)
    ensures r == GetNested(obj, path)
  {
    if !Truthy(obj) || path == "" {
      return None;
    }
    var parts := Split(path, ".");
    var cur := obj;
    var i := 0;
    while i < |parts|
      invariant 0 <= i <= |parts|
      invariant Walk(cur, parts[i..]) == Walk(obj, parts)
    {
      var p := parts[i];
      assert parts[i..][1..] == parts[i + 1..];
      if Truthy(cur) && OwnProperty(cur, p).Some? {
        cur := OwnProperty(cur, p).value;
      } else {
        return None;
      }
      i := i + 1;
    }
    return Some(cur);
  }

  /** A walk along `a + b` is the walk along `a`, continued along `b`. */
  lemma {:induction false} WalkAppend(cur: Json, a: seq<string>, b: seq<string>)
    ensures Walk(cur, a + b) == match Walk(cur, a) case None => None case Some(c) => Walk(c, b)
    decreases |a|
  {
    if a == [] {
      assert a + b == b;
    } else {
      assert (a + b)[0] == a[0];
      assert (a + b)[1..] == a[1..] + b;
      if Truthy(cur) && OwnProperty(cur, a[0]).Some? {
        WalkAppend(OwnProperty(cur, a[0]).value, a[1..], b);
      }
    }
  }

  /** Once a segment is not an own property of the value reached so far, the result is `undefined`. */
  lemma WalkStops(cur: Json, a: seq<string>, p: string, rest: seq<string>)
    requires Walk(cur, a).Some?
    requires !Truthy(Walk(cur, a).value) || OwnProperty(Walk(cur, a).value, p).None?
    ensures Walk(cur, a + [p] + rest) == None
  {
    WalkAppend(cur, a, [p] + rest);
    assert a + [p] + rest == a + ([p] + rest);
    assert ([p] + rest)[0] == p;
  }

  // ---------------------------------------------------------------------
  // setNestedValueV1
  // ---------------------------------------------------------------------

  /** The members of `o` when it is an object; `{}` replaces anything else. */
  function MembersOrEmpty(o: Option<Json>): (r: seq<(string, Json)>)
  {
    match o
    case Some(JObj(ms)) => ms
    case _ => []
  }

  /**
   * `setNestedValueV1` on an object's members: every intermediate that is
   * missing or not an object becomes `{}`, and the leaf is assigned.
   */
  function SetPath(ms: seq<(string, Json)>, parts: seq<string>, v: Json): (r: seq<(string, Json)>)
    requires |parts| >= 1
    ensures forall k :: k != parts[0] ==> Get(r, k) == Get(ms, k)
    decreases |parts|
  {
    if |parts| == 1 then Put(ms, parts[0], v)
    else Put(ms, parts[0], JObj(SetPath(MembersOrEmpty(Get(ms, parts[0])), parts[1..], v)))
  }

  function SetNested(ms: seq<(string, Json)>, path: string, v: Json): (r: seq<(string, Json)>)
  {
    SetPath(ms, Split(path, "."), v)
  }

  /** After setting a path, walking the same path finds the value that was set. */
  lemma {:induction false} SetThenWalk(ms: seq<(string, Json)>, parts: seq<string>, v: Json)
    requires |parts| >= 1
    ensures Walk(JObj(SetPath(ms, parts, v)), parts) == Some(v)
    decreases |parts|
  {
    var r := SetPath(ms, parts, v);
    if |parts| == 1 {
      assert Get(r, parts[0]) == Some(v);
      assert parts[1..] == [];
    } else {
      var inner := SetPath(MembersOrEmpty(Get(ms, parts[0])), parts[1..], v);
      assert Get(r, parts[0]) == Some(JObj(inner));
      SetThenWalk(MembersOrEmpty(Get(ms, parts[0])), parts[1..], v);
    }
  }

  /** `getNestedValueV1(obj, path)` returns what `setNestedValueV1(obj, path, v)` stored. */
  lemma SetThenGet(ms: seq<(string, Json)>, path: string, v: Json)
    requires path != ""
    ensures GetNested(JObj(SetNested(ms, path, v)), path) == Some(v)
  {
    SetThenWalk(ms, Split(path, "."), v);
  }

  // ---------------------------------------------------------------------
  // testMappingsV1
  // ---------------------------------------------------------------------

  /** One simulated update. */
  datatype TestResult = TestResult(
    source: string,
    target: string,
    verb: string,
    url: string,
    payload: seq<(string, Json)>,
    status: string,
    message: string)

  /** An error message, or the results for `displayMappingResults`. */
  datatype Outcome = Failed(error: string) | Simulated(results: seq<TestResult>)

  /** `getSource(parseInt(text))`: a strict id comparison, which `NaN` never passes. */
  function SourceOfText(sources: seq<Source>, text: string): (r: Option<Source>)
  {
    match ParseInt(text)
    case None => None
    case Some(id) => FindSource(sources, id)
  }

  function SourceOfBucket(sources: seq<Source>, b: Bucket): (r: Option<Source>)
  {
    SourceOfText(sources, SourceHalf(b.key))
  }

  function TargetOfBucket(sources: seq<Source>, b: Bucket): (r: Option<Source>)
  {
    match TargetHalf(b.key)
    case None => None
    case Some(t) => SourceOfText(sources, t)
  }

  /** The example a source's payload is read from. */
  function SampleOf(parse: Parser, s: Source): (r: Json)
  {
    if s.receiveResponseExample != "" then SafeParseJson(parse, s.receiveResponseExample) else JObj([])
  }

  /** The payload after copying each mapping whose source value is defined. */
  function Payload(sample: Json, ms: seq<Mapping>): (r: seq<(string, Json)>)
    decreases |ms|
  {
    if ms == [] then []
    else
      var payload := Payload(sample, ms[..|ms| - 1]);
      var m := ms[|ms| - 1];
      match GetNested(sample, m.sourceField)
      case None => payload
      case Some(v) => SetNested(payload, m.targetField, v)
  }

  /** The result of one bucket, or `None` when its source or target is not found. */
  function ResultOf(parse: Parser, sources: seq<Source>, b: Bucket): (r: Option<TestResult>)
    ensures r.Some? <==> SourceOfBucket(sources, b).Some? && TargetOfBucket(sources, b).Some?
    ensures r.Some? ==>
              var target := TargetOfBucket(sources, b).value;
              && r.value.source == OrElse(SourceOfBucket(sources, b).value.name, "Source")
              && r.value.target == OrElse(target.name, "Target")
              && r.value.verb == ToUpper(if target.updateMethod == "" then "POST" else target.updateMethod)
              && r.value.url == (if target.updateEndpoint == "" then "No update endpoint configured" else target.updateEndpoint)
              && r.value.status == "success"
              && r.value.message == "Mapped " + IntText(|b.mappings|) + " field(s)"
  {
    match SourceOfBucket(sources, b)
    case None => None
    case Some(source) =>
      match TargetOfBucket(sources, b)
      case None => None
      case Some(target) =>
        Some(TestResult(
          OrElse(source.name, "Source"),
          OrElse(target.name, "Target"),
          ToUpper(OrElse(target.updateMethod, "POST")),
          OrElse(target.updateEndpoint, "No update endpoint configured"),
          Payload(SampleOf(parse, source), b.mappings),
          "success",
          "Mapped " + IntText(|b.mappings|) + " field(s)"))
  }

  function Results(parse: Parser, sources: seq<Source>, g: Buckets): (r: seq<TestResult>)
    decreases |g|
  {
    if g == [] then []
    else
      var rs := Results(parse, sources, g[..|g| - 1]);
      match ResultOf(parse, sources, g[|g| - 1])
      case None => rs
      case Some(r) => rs + [r]
  }

  const NotEnoughSources := "You need at least two sources to test mappings."
  const NoMappings := "No field mappings defined yet."

  /** `testMappingsV1`. */
  function TestMappings(parse: Parser, sources: seq<Source>, g: Buckets): (o: Outcome)
    ensures o == Failed(NotEnoughSources) <==> |sources| < 2
    ensures o == Failed(NoMappings) <==> |sources| >= 2 && g == []
    ensures o.Simulated? <==> |sources| >= 2 && g != []
  {
    if |sources| < 2 then Failed(NotEnoughSources)
    else if g == [] then Failed(NoMappings)
    else Simulated(Results(parse, sources, g))
  }

  /** The payload loop of one bucket. */
  method BuildPayload(sample: Json, ms: seq<Mapping>) returns (payload: seq<(string, Json)>)
    ensures payload == Payload(sample, ms)
  {
    payload := [];
    var i := 0;
    while i < |ms|
      invariant 0 <= i <= |ms|
      invariant payload == Payload(sample, ms[..i])
    {
      var m := ms[i];
      assert ms[..i + 1][..i] == ms[..i];
      var value := GetNestedValue(sample, m.sourceField);
      if value.Some? {
        payload := SetNested(payload, m.targetField, value.value);
      }
      i := i + 1;
    }
    assert ms[..|ms|] == ms;
  }

  /** The bucket loop of `testMappingsV1`, pushing one result per resolved bucket. */
  method TestMappingsV1(parse: Parser, sources: seq<Source>, g: Buckets) returns (outcome: Outcome)
    ensures outcome == TestMappings(parse, sources, g)
  {
    if |sources| < 2 {
      return Failed(NotEnoughSources);
    }
    if g == [] {
      return Failed(NoMappings);
    }
    var results := [];
    var i := 0;
    while i < |g|
      invariant 0 <= i <= |g|
      invariant results == Results(parse, sources, g[..i])
    {
      assert g[..i + 1][..i] == g[..i];
      var result := SimulateBucket(parse, sources, g[i]);
      if result.Some? {
        results := results + [result.value];
      }
      i := i + 1;
    }
    assert g[..|g|] == g;
    return Simulated(results);
  }

  /** The simulated request of one bucket, or `None` when its source or target is not registered. */
  method SimulateBucket(parse: Parser, sources: seq<Source>, b: Bucket) returns (result: Option<TestResult>)
    ensures result == ResultOf(parse, sources, b)
  {
    var source := SourceOfBucket(sources, b);
    var target := TargetOfBucket(sources, b);
    if source.None? || target.None? {
      return None;
    }
    var payload := BuildPayload(SampleOf(parse, source.value), b.mappings);
    return Some(TestResult(
      OrElse(source.value.name, "Source"),
      OrElse(target.value.name, "Target"),
      ToUpper(OrElse(target.value.updateMethod, "POST")),
      OrElse(target.value.updateEndpoint, "No update endpoint configured"),
      payload,
      "success",
      "Mapped " + IntText(|b.mappings|) + " field(s)"));
  }

  // ---------------------------------------------------------------------
  // Properties of the simulation
  // ---------------------------------------------------------------------

  /** The buckets whose source and target are both found, in bucket order. */
  function Resolved(sources: seq<Source>, g: Buckets): (r: seq<Bucket>)
    decreases |g|
  {
    if g == [] then []
    else
      var b := g[|g| - 1];
      Resolved(sources, g[..|g| - 1])
      + (if SourceOfBucket(sources, b).Some? && TargetOfBucket(sources, b).Some? then [b] else [])
  }

  /** Exactly one result per resolved bucket, in bucket order; other buckets are skipped. */
  lemma {:induction false} OneResultPerBucket(parse: Parser, sources: seq<Source>, g: Buckets)
    ensures |Results(parse, sources, g)| == |Resolved(sources, g)| <= |g|
    ensures forall k :: 0 <= k < |Resolved(sources, g)| ==>
              ResultOf(parse, sources, Resolved(sources, g)[k]) == Some(Results(parse, sources, g)[k])
    decreases |g|
  {
    if g != [] {
      var init := g[..|g| - 1];
      OneResultPerBucket(parse, sources, init);
      var rs := Results(parse, sources, init);
      var bs := Resolved(sources, init);
      var b := g[|g| - 1];
      if ResultOf(parse, sources, b).Some? {
        assert Results(parse, sources, g) == rs + [ResultOf(parse, sources, b).value];
        assert Resolved(sources, g) == bs + [b];
      }
    }
  }

  /** An absent or unparsable example yields an empty payload: no `undefined` is ever written. */
  lemma {:induction false} EmptyExampleEmptyPayload(parse: Parser, s: Source, ms: seq<Mapping>)
    requires s.receiveResponseExample == "" || parse(s.receiveResponseExample).None?
    ensures Payload(SampleOf(parse, s), ms) == []
    decreases |ms|
  {
    if ms != [] {
      var sample := SampleOf(parse, s);
      var m := ms[|ms| - 1];
      EmptyExampleEmptyPayload(parse, s, ms[..|ms| - 1]);
      if Truthy(sample) && m.sourceField != "" {
        var parts := Split(m.sourceField, ".");
        assert sample == JObj([]);
        assert parts[0..] == parts;
        assert OwnProperty(sample, parts[0]).None?;
      }
    }
  }

  /** The last mapping into a target field leaves there the value its source field holds, when defined. */
  lemma LastMappingWins(sample: Json, ms: seq<Mapping>, m: Mapping)
    requires GetNested(sample, m.sourceField).Some? && m.targetField != ""
    ensures GetNested(JObj(Payload(sample, ms + [m])), m.targetField) == GetNested(sample, m.sourceField)
  {
    assert (ms + [m])[..|ms + [m]| - 1] == ms;
    SetThenGet(Payload(sample, ms), m.targetField, GetNested(sample, m.sourceField).value);
  }

  /**
   * The worked example: source example `{"user":{"id":1,"name":"Bo"}}` and
   * one mapping from `user.name` to `fullName` give the payload
   * `{"fullName":"Bo"}`.
   */
  lemma ExamplePayload()
    ensures Payload(JObj([("user", JObj([("id", JNum(1)), ("name", JStr("Bo"))]))]),
                    [Mapping("user.name", "string", "fullName", "string", 1, 2)])
         == [("fullName", JStr("Bo"))]
  {
    var sample := JObj([("user", JObj([("id", JNum(1)), ("name", JStr("Bo"))]))]);
    var m := Mapping("user.name", "string", "fullName", "string", 1, 2);
    ExampleGet();
    ExampleSet();
    assert [m][..0] == [];
  }

  lemma ExampleGet()
    ensures GetNested(JObj([("user", JObj([("id", JNum(1)), ("name", JStr("Bo"))]))]), "user.name") == Some(JStr("Bo"))
  {
    var inner := JObj([("id", JNum(1)), ("name", JStr("Bo"))]);
    var sample := JObj([("user", inner)]);
    assert JoinWith(["user", "name"], ".") == "user.name";
    SplitJoin(["user", "name"], ".");
    assert Walk(inner, ["name"]) == Some(JStr("Bo")) by { assert ["name"][1..] == []; }
    assert ["user", "name"][1..] == ["name"];
  }

  lemma ExampleSet()
    ensures SetNested([], "fullName", JStr("Bo")) == [("fullName", JStr("Bo"))]
  {
    assert JoinWith(["fullName"], ".") == "fullName";
    SplitJoin(["fullName"], ".");
  }

  // ---------------------------------------------------------------------
  // updateTestMappingsButtonState
  // ---------------------------------------------------------------------

  datatype Button = Button(disabled: bool, title: string)

  function ButtonState(sources: seq<Source>, g: Buckets): (b: Button)
    ensures b.disabled <==> |sources| < 2 || g == []
    ensures |sources| < 2 ==> b.title == "Add at least 2 sources to test mappings"
    ensures |sources| >= 2 && g == [] ==> b.title == "Create field mappings in the Sources Map section to test"
    ensures !b.disabled ==> b.title == "Test your field mappings"
  {
    var enoughSources := |sources| >= 2;
    var hasMappings := g != [];
    if !enoughSources then Button(true, "Add at least 2 sources to test mappings")
    else if !hasMappings then Button(true, "Create field mappings in the Sources Map section to test")
    else Button(false, "Test your field mappings")
  }

  /** The button is enabled exactly when the simulation would produce results rather than an error. */
  lemma ButtonAgreesWithSimulation(parse: Parser, sources: seq<Source>, g: Buckets)
    ensures !ButtonState(sources, g).disabled <==> TestMappings(parse, sources, g).Simulated?
  {
  }

  // ---------------------------------------------------------------------
  // escapeHtml
  // ---------------------------------------------------------------------

  /** `s.replace(/c/g, rep)` for a single character `c`. */
  function ReplaceAll(s: string, c: char, rep: string): (r: string)
    ensures c !in s ==> r == s
    decreases |s|
  {
    if s == [] then []
    else ReplaceAll(s[..|s| - 1], c, rep) + (if s[|s| - 1] == c then rep else [s[|s| - 1]])
  }

  /** `escapeHtml(str)`: `''` for a falsy input, else the five replacements with `&` first. */
  function EscapeHtml(s: string): (r: string)
  {
    if s == "" then ""
    else
      ReplaceAll(ReplaceAll(ReplaceAll(ReplaceAll(ReplaceAll(s, '&', "&amp;"), '<', "&lt;"), '>', "&gt;"), '"', "&quot;"), '\'', "&#039;")
  }

  /** The entity of one character. */
  function EscapeChar(c: char): (r: string)
  {
    if c == '&' then "&amp;"
    else if c == '<' then "&lt;"
    else if c == '>' then "&gt;"
    else if c == '"' then "&quot;"
    else if c == '\'' then "&#039;"
    else [c]
  }

  /** The independent reference: each character replaced by its entity, once. */
  function EscapeEach(s: string): (r: string)
    decreases |s|
  {
    if s == [] then [] else EscapeEach(s[..|s| - 1]) + EscapeChar(s[|s| - 1])
  }

  lemma AppendAssoc<T>(a: seq<T>, b: seq<T>, c: seq<T>)
    ensures (a + b) + c == a + (b + c)
  {
  }

  lemma ReplaceAllSnoc(s: string, x: char, c: char, rep: string)
    ensures ReplaceAll(s + [x], c, rep) == ReplaceAll(s, c, rep) + (if x == c then rep else [x])
  {
    assert (s + [x])[..|s|] == s;
  }

  lemma {:induction false} ReplaceAllAppend(a: string, b: string, c: char, rep: string)
    ensures ReplaceAll(a + b, c, rep) == ReplaceAll(a, c, rep) + ReplaceAll(b, c, rep)
    decreases |b|
  {
    if b == [] {
      assert a + b == a;
    } else {
      var init, last := b[..|b| - 1], b[|b| - 1];
      var tail := if last == c then rep else [last];
      var ra, ri := ReplaceAll(a, c, rep), ReplaceAll(init, c, rep);
      calc {
        ReplaceAll(a + b, c, rep);
        == { assert b == init + [last]; SnocAssoc(a, init, last); }
        ReplaceAll((a + init) + [last], c, rep);
        == { ReplaceAllSnoc(a + init, last, c, rep); }
        ReplaceAll(a + init, c, rep) + tail;
        == { ReplaceAllAppend(a, init, c, rep); }
        (ra + ri) + tail;
        == { AppendAssoc(ra, ri, tail); }
        ra + (ri + tail);
        == { ReplaceAllSnoc(init, last, c, rep); assert init + [last] == b; }
        ra + ReplaceAll(b, c, rep);
      }
    }
  }

  function Chain(s: string): (r: string)
  {
    ReplaceAll(ReplaceAll(ReplaceAll(ReplaceAll(ReplaceAll(s, '&', "&amp;"), '<', "&lt;"), '>', "&gt;"), '"', "&quot;"), '\'', "&#039;")
  }

  lemma ChainAppend(a: string, b: string)
    ensures Chain(a + b) == Chain(a) + Chain(b)
  {
    var r1a, r1b := ReplaceAll(a, '&', "&amp;"), ReplaceAll(b, '&', "&amp;");
    ReplaceAllAppend(a, b, '&', "&amp;");
    var r2a, r2b := ReplaceAll(r1a, '<', "&lt;"), ReplaceAll(r1b, '<', "&lt;");
    ReplaceAllAppend(r1a, r1b, '<', "&lt;");
    var r3a, r3b := ReplaceAll(r2a, '>', "&gt;"), ReplaceAll(r2b, '>', "&gt;");
    ReplaceAllAppend(r2a, r2b, '>', "&gt;");
    var r4a, r4b := ReplaceAll(r3a, '"', "&quot;"), ReplaceAll(r3b, '"', "&quot;");
    ReplaceAllAppend(r3a, r3b, '"', "&quot;");
    ReplaceAllAppend(r4a, r4b, '\'', "&#039;");
  }

  lemma ReplaceOne(c: char, d: char, rep: string)
    ensures ReplaceAll([c], d, rep) == if c == d then rep else [c]
  {
    assert [c][..0] == [];
  }

  /** The replacements after `&` leave a text without their characters alone. */
  lemma KeepFromQuot(t: string)
    requires '"' !in t && '\'' !in t
    ensures ReplaceAll(ReplaceAll(t, '"', "&quot;"), '\'', "&#039;") == t
  {
  }

  lemma KeepFromGt(t: string)
    requires '>' !in t && '"' !in t && '\'' !in t
    ensures ReplaceAll(ReplaceAll(ReplaceAll(t, '>', "&gt;"), '"', "&quot;"), '\'', "&#039;") == t
  {
    KeepFromQuot(t);
  }

  lemma KeepFromLt(t: string)
    requires '<' !in t && '>' !in t && '"' !in t && '\'' !in t
    ensures ReplaceAll(ReplaceAll(ReplaceAll(ReplaceAll(t, '<', "&lt;"), '>', "&gt;"), '"', "&quot;"), '\'', "&#039;") == t
  {
    KeepFromGt(t);
  }

  /** One character through the chain gives exactly its entity: `&` first means no entity is escaped twice. */
  lemma ChainOfChar(c: char)
    ensures Chain([c]) == EscapeChar(c)
  {
    ReplaceOne(c, '&', "&amp;");
    if c == '&' {
      var e := "&amp;";
      assert ReplaceAll([c], '&', e) == e;
      KeepFromLt(e);
    } else {
      ChainPastAmp(c);
    }
  }

  lemma ChainPastAmp(c: char)
    requires c != '&'
    ensures Chain([c]) == EscapeChar(c)
  {
    ReplaceOne(c, '&', "&amp;");
    assert ReplaceAll([c], '&', "&amp;") == [c];
    ReplaceOne(c, '<', "&lt;");
    if c == '<' {
      var e := "&lt;";
      assert ReplaceAll([c], '<', e) == e;
      KeepFromGt(e);
    } else {
      assert ReplaceAll([c], '<', "&lt;") == [c];
      ChainPastLt(c);
    }
  }

  lemma ChainPastLt(c: char)
    requires c != '&' && c != '<'
    ensures ReplaceAll(ReplaceAll(ReplaceAll([c], '>', "&gt;"), '"', "&quot;"), '\'', "&#039;") == EscapeChar(c)
  {
    ReplaceOne(c, '>', "&gt;");
    if c == '>' {
      var e := "&gt;";
      assert ReplaceAll([c], '>', e) == e;
      KeepFromQuot(e);
    } else {
      assert ReplaceAll([c], '>', "&gt;") == [c];
      ReplaceOne(c, '"', "&quot;");
      if c == '"' {
        var e := "&quot;";
        assert ReplaceAll([c], '"', e) == e;
      } else {
        assert ReplaceAll([c], '"', "&quot;") == [c];
        ReplaceOne(c, '\'', "&#039;");
      }
    }
  }

  /** `escapeHtml` is the character-wise entity map. */
  lemma {:induction false} EscapeIsCharwise(s: string)
    ensures EscapeHtml(s) == EscapeEach(s)
    decreases |s|
  {
    if s != [] {
      var init := s[..|s| - 1];
      EscapeIsCharwise(init);
      ChainAppend(init, [s[|s| - 1]]);
      ChainOfChar(s[|s| - 1]);
      assert init + [s[|s| - 1]] == s;
      if init == [] {
        assert Chain(init) == [] by { assert ReplaceAll(init, '&', "&amp;") == []; }
      }
    }
  }

  predicate Unsafe(c: char)
  {
    c == '<' || c == '>' || c == '"' || c == '\''
  }

  lemma {:induction false} EscapeEachSafe(s: string)
    ensures forall i :: 0 <= i < |EscapeEach(s)| ==> !Unsafe(EscapeEach(s)[i])
    decreases |s|
  {
    if s != [] {
      var init := s[..|s| - 1];
      EscapeEachSafe(init);
      var e := EscapeEach(init);
      var t := EscapeChar(s[|s| - 1]);
      assert forall i :: 0 <= i < |t| ==> !Unsafe(t[i]);
      assert forall i :: |e| <= i < |e| + |t| ==> (e + t)[i] == t[i - |e|];
    }
  }

  /** The escaped text holds no `<`, `>`, `"` or `'`, and is empty exactly when the input is. */
  lemma EscapeSafe(s: string)
    ensures forall i :: 0 <= i < |EscapeHtml(s)| ==> !Unsafe(EscapeHtml(s)[i])
    ensures EscapeHtml(s) == "" <==> s == ""
  {
    EscapeIsCharwise(s);
    EscapeEachSafe(s);
    if s != [] {
      EscapeEachLength(s);
    }
  }

  lemma {:induction false} EscapeEachLength(s: string)
    ensures |EscapeEach(s)| >= |s|
    decreases |s|
  {
    if s != [] {
      EscapeEachLength(s[..|s| - 1]);
    }
  }
}

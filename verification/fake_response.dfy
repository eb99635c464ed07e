/** `ResponseFill` from the dataset tools: every tool call that is neither last nor already
    answered gets a fabricated `tool_response` message right after it, whose values are
    placeholders shaped by the matching candidate tool's declared response schema. */
module FakeResponse {
  import opened Wrappers
  import opened JsonValues
  import opened RawSamples
  import Text

  // ================================================================ fake data

  /** The `type` a response field declares (JSON null when absent). */
  function FieldType(details: Json): Json
    requires details.JObj?
  {
    GetOrNull(details.fields, "type")
  }

  /** The placeholder stored under `key` for a field declared with type `ty`: the scalar
      types and every unknown type share the string form. */
  function FakeValue(key: string, ty: Json): Json {
    if ty == JStr("object") then JObj([Field(key, JStr("value"))])
    else if ty == JStr("array") then JList([JStr(key + "_value")])
    else JStr(key + "_value")
  }

  /** `generate_fake_data` over the schema fields `fs`, assigning into `acc`; `None` when a
      field's details are not a dict, where `details.get` raises. */
  function FakeFields(fs: seq<Field>, acc: seq<Field>): (r: Option<seq<Field>>)
    ensures r.Some? <==> forall i :: 0 <= i < |fs| ==> fs[i].val.JObj?
    decreases |fs|
  {
    if |fs| == 0 then Some(acc)
    else if !fs[0].val.JObj? then None
    else
      assert forall i :: 0 < i < |fs| ==> fs[1..][i - 1] == fs[i];
      FakeFields(fs[1..], Assign(acc, fs[0].key, FakeValue(fs[0].key, FieldType(fs[0].val))))
  }

  /** `generate_fake_data(schema)`; `None` when `schema.items()` or a `details.get` raises. */
  function FakeData(schema: Json): (r: Option<seq<Field>>)
    ensures r.Some? <==> schema.JObj? && forall i :: 0 <= i < |schema.fields| ==> schema.fields[i].val.JObj?
  {
    if schema.JObj? then FakeFields(schema.fields, []) else None
  }

  /** Every field of the schema gets exactly its placeholder, under its own key, and the
      keys already assigned stay as they were. */
  lemma {:induction false} FakeFieldsMeans(fs: seq<Field>, acc: seq<Field>)
    requires forall i :: 0 <= i < |fs| ==> fs[i].val.JObj?
    requires DistinctKeys(fs)
    ensures FakeFields(fs, acc).Some?
    ensures forall k :: Lookup(FakeFields(fs, acc).value, k) ==
              if HasKey(fs, k) then Some(FakeValue(k, FieldType(Lookup(fs, k).value))) else Lookup(acc, k)
    ensures DistinctKeys(acc) ==> DistinctKeys(FakeFields(fs, acc).value)
  {
    if |fs| > 0 {
      var f := fs[0];
      var v := FakeValue(f.key, FieldType(f.val));
      var acc' := Assign(acc, f.key, v);
      var tail := fs[1..];
      assert forall i :: 0 <= i < |tail| ==> tail[i] == fs[i + 1];
      assert DistinctKeys(tail);
      FakeFieldsMeans(tail, acc');
      AssignLookup(acc, f.key, v);
      var r := FakeFields(fs, acc).value;
      assert r == FakeFields(tail, acc').value;
      assert !HasKey(tail, f.key);
      FirstKeyIndexUnique(fs, f.key, 0);
      forall k
        ensures Lookup(r, k) ==
                if HasKey(fs, k) then Some(FakeValue(k, FieldType(Lookup(fs, k).value))) else Lookup(acc, k)
      {
        if k != f.key {
          LookupTail(fs, k);
        }
      }
    }
  }

  /** `generate_fake_data` returns exactly the schema's keys, each with the placeholder
      its declared type calls for. */
  lemma FakeDataMeans(schema: Json)
    requires schema.JObj? && DistinctKeys(schema.fields)
    requires forall i :: 0 <= i < |schema.fields| ==> schema.fields[i].val.JObj?
    ensures FakeData(schema).Some?
    ensures forall k :: HasKey(FakeData(schema).value, k) <==> HasKey(schema.fields, k)
    ensures forall k :: HasKey(schema.fields, k) ==>
              Lookup(FakeData(schema).value, k) == Some(FakeValue(k, FieldType(Lookup(schema.fields, k).value)))
    ensures DistinctKeys(FakeData(schema).value)
  {
    FakeFieldsMeans(schema.fields, []);
    forall k
      ensures HasKey(FakeData(schema).value, k) <==> HasKey(schema.fields, k)
    {
      assert Lookup(FakeData(schema).value, k).Some? <==> HasKey(schema.fields, k);
    }
  }

  /** The three shapes a placeholder takes. */
  lemma FakeValueShapes(key: string, ty: Json)
    ensures FakeValue(key, ty).JObj? <==> ty == JStr("object")
    ensures FakeValue(key, ty).JList? <==> ty == JStr("array")
    ensures FakeValue(key, ty).JObj? ==> FakeValue(key, ty).fields == [Field(key, JStr("value"))]
    ensures FakeValue(key, ty).JList? ==> FakeValue(key, ty).elems == [JStr(key + "_value")]
    ensures FakeValue(key, ty).JStr? ==> FakeValue(key, ty).s == key + "_value"
  {
  }

  // ================================================================ matching calls to tools

  /** `tool.get("name")`. */
  function ToolName(t: Json): Json
    requires t.JObj?
  {
    GetOrNull(t.fields, "name")
  }

  /** `call.get("name")`. */
  function Called(call: Json): Json
    requires call.JObj?
  {
    GetOrNull(call.fields, "name")
  }

  /** `tool.get("response", {})`. */
  function Schema(t: Json): Json
    requires t.JObj?
  {
    GetOr(t.fields, "response", JObj([]))
  }

  /** The candidate `t` is a dict whose name equals `name` under Python `==`. */
  predicate NamedAs(t: Json, name: Json) {
    t.JObj? && PyEq(ToolName(t), name)
  }

  /** The first candidate dict named `name`. */
  function FirstNamed(tools: seq<Json>, name: Json): (r: Option<nat>)
    ensures r.Some? ==> r.value < |tools| && NamedAs(tools[r.value], name)
    ensures r.Some? ==> forall j :: 0 <= j < r.value ==> !NamedAs(tools[j], name)
    ensures r.None? ==> forall j :: 0 <= j < |tools| ==> !NamedAs(tools[j], name)
    decreases |tools|
  {
    if |tools| == 0 then None
    else if NamedAs(tools[0], name) then Some(0)
    else
      assert forall j :: 0 < j < |tools| ==> tools[1..][j - 1] == tools[j];
      match FirstNamed(tools[1..], name)
      case None => None
      case Some(i) => Some(i + 1)
  }

  /** What the inner loop over the candidates does for one call: no candidate matches, the
      first match's fake data goes under the key `json.dumps` writes for its name, or
      something raises. */
  datatype Match = NoMatch | Found(key: string, fake: seq<Field>) | Raised

  /** The inner loop of `fill_sample` for one call: the first candidate whose name equals
      the call's (Python `==`) supplies the fake data; `tool.get` on a non-dict candidate,
      `call.get` on a non-dict call, a malformed schema, or a list or dict name, which
      cannot key `responses`, raises. */
  function MatchTool(call: Json, tools: seq<Json>): Match
    decreases |tools|
  {
    if |tools| == 0 then NoMatch
    else if !tools[0].JObj? || !call.JObj? then Raised
    else if PyEq(ToolName(tools[0]), Called(call)) then
      match FakeData(Schema(tools[0]))
      case None => Raised
      case Some(d) => (match KeyText(ToolName(tools[0])) case Some(k) => Found(k, d) case None => Raised)
    else MatchTool(call, tools[1..])
  }

  /** On dict candidates and a dict call, the loop picks the first candidate named as the
      call and raises only when that candidate's schema is malformed or its name is a list
      or a dict. */
  lemma {:induction false} MatchToolMeans(call: Json, tools: seq<Json>)
    requires call.JObj? && AllObjs(tools)
    ensures FirstNamed(tools, Called(call)).None? ==> MatchTool(call, tools) == NoMatch
    ensures FirstNamed(tools, Called(call)).Some? ==>
              var i := FirstNamed(tools, Called(call)).value;
              MatchTool(call, tools) ==
                if FakeData(Schema(tools[i])).Some? && KeyText(ToolName(tools[i])).Some? then
                  Found(KeyText(ToolName(tools[i])).value, FakeData(Schema(tools[i])).value)
                else Raised
    decreases |tools|
  {
    if |tools| > 0 && !NamedAs(tools[0], Called(call)) {
      var tail := tools[1..];
      assert forall j :: 0 <= j < |tail| ==> tail[j] == tools[j + 1];
      MatchToolMeans(call, tail);
    }
  }

  /** A candidate that is not a dict, reached before any match, raises. */
  lemma {:induction false} MatchToolNonDict(call: Json, tools: seq<Json>, j: nat)
    requires call.JObj? && j < |tools| && !tools[j].JObj?
    requires forall m :: 0 <= m < j ==> tools[m].JObj? && !NamedAs(tools[m], Called(call))
    ensures MatchTool(call, tools) == Raised
    decreases j
  {
    if j > 0 {
      var tail := tools[1..];
      assert forall m :: 0 <= m < |tail| ==> tail[m] == tools[m + 1];
      MatchToolNonDict(call, tail, j - 1);
    }
  }

  /** Names need not be strings: a call and a candidate without a name match under the key
      `null`, an integer name is keyed by its digits, and a list name raises. */
  lemma NameKeyExamples()
    ensures MatchTool(JObj([]), [JObj([])]) == Found("null", [])
    ensures MatchTool(JObj([Field("name", JBool(true))]), [JObj([Field("name", JInt(1))])]) == Found("1", [])
    ensures MatchTool(JObj([Field("name", JList([]))]), [JObj([Field("name", JList([]))])]) == Raised
  {
    assert FakeData(JObj([])) == Some([]);
    var one := JObj([Field("name", JInt(1))]);
    assert one.fields[0].key == "name";
    FirstKeyIndexUnique(one.fields, "name", 0);
    assert Lookup(one.fields, "name") == Some(JInt(1));
    assert !HasKey(one.fields, "response");
    assert ToolName(one) == JInt(1) && Schema(one) == JObj([]);
    assert Text.IntToString(1) == "1";
    var yes := JObj([Field("name", JBool(true))]);
    assert yes.fields[0].key == "name";
    FirstKeyIndexUnique(yes.fields, "name", 0);
    assert Called(yes) == JBool(true) && PyEq(JInt(1), JBool(true));
    var listed := JObj([Field("name", JList([]))]);
    assert listed.fields[0].key == "name";
    FirstKeyIndexUnique(listed.fields, "name", 0);
    assert Lookup(listed.fields, "name") == Some(JList([]));
    assert !HasKey(listed.fields, "response");
    assert ToolName(listed) == JList([]) && Schema(listed) == JObj([]);
    assert PyEq(JList([]), JList([]));
  }

  /** `responses` after the loop over `calls`, starting from `acc`; a raise ends the loop
      and keeps what was assigned so far. */
  function Responses(calls: seq<Json>, tools: seq<Json>, acc: seq<Field>): seq<Field>
    decreases |calls|
  {
    if |calls| == 0 then acc
    else match MatchTool(calls[0], tools)
      case Raised => acc
      case NoMatch => Responses(calls[1..], tools, acc)
      case Found(n, d) => Responses(calls[1..], tools, Assign(acc, n, JObj(d)))
  }

  /** The response key a dict call gets: the key of the first candidate named as it, if
      any. */
  function RequestKey(call: Json, tools: seq<Json>): Option<string>
    requires call.JObj?
  {
    match FirstNamed(tools, Called(call))
    case Some(i) => KeyText(ToolName(tools[i]))
    case None => None
  }

  /** The fake data of the first candidate named as the call. */
  function FakeFor(call: Json, tools: seq<Json>): seq<Field>
    requires call.JObj?
  {
    match FirstNamed(tools, Called(call))
    case Some(i) => (match FakeData(Schema(tools[i])) case Some(d) => d case None => [])
    case None => []
  }

  /** The last call whose response key is `n`. */
  function LastRequest(calls: seq<Json>, tools: seq<Json>, n: string): (r: Option<nat>)
    requires AllObjs(calls)
    ensures r.Some? ==> r.value < |calls| && RequestKey(calls[r.value], tools) == Some(n)
    ensures r.Some? ==> forall c :: r.value < c < |calls| ==> RequestKey(calls[c], tools) != Some(n)
    ensures r.None? ==> forall c :: 0 <= c < |calls| ==> RequestKey(calls[c], tools) != Some(n)
    decreases |calls|
  {
    if |calls| == 0 then None
    else
      var rest := calls[1..];
      assert forall c :: 0 <= c < |rest| ==> rest[c] == calls[c + 1];
      match LastRequest(rest, tools, n)
      case Some(c) => Some(c + 1)
      case None => if RequestKey(calls[0], tools) == Some(n) then Some(0) else None
  }

  /** Every candidate is a dict with a well-formed response schema and a name that can key
      a dict: the loop then never raises. */
  predicate WellFormedTools(tools: seq<Json>) {
    AllObjs(tools) && forall i :: 0 <= i < |tools| ==> FakeData(Schema(tools[i])).Some? && KeyText(ToolName(tools[i])).Some?
  }

  /** On well-formed input a key of the response dict is the key of some call's first
      candidate; it holds the fake data for the last call with that key (two names with one
      JSON text share a key), and keys no call requests keep their earlier value. */
  lemma {:induction false} ResponsesMeans(calls: seq<Json>, tools: seq<Json>, acc: seq<Field>)
    requires AllObjs(calls) && WellFormedTools(tools)
    ensures forall n :: Lookup(Responses(calls, tools, acc), n) ==
              match LastRequest(calls, tools, n)
              case Some(c) => Some(JObj(FakeFor(calls[c], tools)))
              case None => Lookup(acc, n)
    decreases |calls|
  {
    if |calls| > 0 {
      var c0 := calls[0];
      var rest := calls[1..];
      assert forall j :: 0 <= j < |rest| ==> rest[j] == calls[j + 1];
      MatchToolMeans(c0, tools);
      var r := Responses(calls, tools, acc);
      var acc' := match FirstNamed(tools, Called(c0))
        case None => acc
        case Some(i) => Assign(acc, KeyText(ToolName(tools[i])).value, JObj(FakeData(Schema(tools[i])).value));
      assert r == Responses(rest, tools, acc');
      ResponsesMeans(rest, tools, acc');
      if FirstNamed(tools, Called(c0)).Some? {
        var i := FirstNamed(tools, Called(c0)).value;
        AssignLookup(acc, KeyText(ToolName(tools[i])).value, JObj(FakeData(Schema(tools[i])).value));
      }
      forall n
        ensures Lookup(r, n) == match LastRequest(calls, tools, n)
                                case Some(c) => Some(JObj(FakeFor(calls[c], tools)))
                                case None => Lookup(acc, n)
      {
        MeansStep(calls, tools, acc, acc', r, n);
      }
    }
  }

  /** One call of the loop: what the rest of the loop leaves, given what the first call
      assigned, is what the whole loop leaves. */
  lemma MeansStep(calls: seq<Json>, tools: seq<Json>, acc: seq<Field>, acc': seq<Field>, r: seq<Field>, n: string)
    requires |calls| > 0 && AllObjs(calls)
    requires AllObjs(calls[1..])
    requires Lookup(r, n) == match LastRequest(calls[1..], tools, n)
                             case Some(c) => Some(JObj(FakeFor(calls[1..][c], tools)))
                             case None => Lookup(acc', n)
    requires Lookup(acc', n) == if RequestKey(calls[0], tools) == Some(n) then Some(JObj(FakeFor(calls[0], tools))) else Lookup(acc, n)
    ensures Lookup(r, n) == match LastRequest(calls, tools, n)
                            case Some(c) => Some(JObj(FakeFor(calls[c], tools)))
                            case None => Lookup(acc, n)
  {
    var rest := calls[1..];
    assert forall j :: 0 <= j < |rest| ==> rest[j] == calls[j + 1];
  }

  /** On well-formed input the response dict started empty has a key exactly for the
      response keys of the calls. */
  lemma ResponsesKeys(calls: seq<Json>, tools: seq<Json>, n: string)
    requires AllObjs(calls) && WellFormedTools(tools)
    ensures HasKey(Responses(calls, tools, []), n) <==> exists c :: 0 <= c < |calls| && RequestKey(calls[c], tools) == Some(n)
  {
    ResponsesMeans(calls, tools, []);
    var r := Responses(calls, tools, []);
    assert HasKey(r, n) <==> Lookup(r, n).Some?;
    if LastRequest(calls, tools, n).Some? {
      var c := LastRequest(calls, tools, n).value;
      assert RequestKey(calls[c], tools) == Some(n);
    }
  }

  /** Filling responses keeps the keys of the response dict distinct. */
  lemma {:induction false} ResponsesDistinct(calls: seq<Json>, tools: seq<Json>, acc: seq<Field>)
    requires DistinctKeys(acc)
    ensures DistinctKeys(Responses(calls, tools, acc))
    decreases |calls|
  {
    if |calls| > 0 {
      match MatchTool(calls[0], tools)
      case Raised =>
      case NoMatch => ResponsesDistinct(calls[1..], tools, acc);
      case Found(n, d) =>
        AssignLookup(acc, n, JObj(d));
        ResponsesDistinct(calls[1..], tools, Assign(acc, n, JObj(d)));
    }
  }

  /** A call whose matching raises ends the `try`: the calls after it add nothing, and the
      responses built before it are kept. */
  lemma {:induction false} ResponsesStops(calls: seq<Json>, tools: seq<Json>, acc: seq<Field>, k: nat)
    requires k < |calls| && MatchTool(calls[k], tools) == Raised
    ensures Responses(calls, tools, acc) == Responses(calls[..k], tools, acc)
    decreases k
  {
    if k == 0 {
      assert calls[..0] == [];
    } else {
      assert calls[..k][0] == calls[0] && calls[..k][1..] == calls[1..][..k - 1];
      match MatchTool(calls[0], tools)
      case Raised =>
      case NoMatch => ResponsesStops(calls[1..], tools, acc, k - 1);
      case Found(n, d) => ResponsesStops(calls[1..], tools, Assign(acc, n, JObj(d)), k - 1);
    }
  }

  // ================================================================ candidate tools

  /** The tool list a `candidate_tools` message yields, or `None` when it leaves the
      current list in place: a content that is neither list nor string, a string that does
      not parse, or a parsed value that cannot be iterated. A missing content is `[]`. */
  function Resolved(m: Json, parse: Parser): Option<seq<Json>>
    requires m.JObj?
  {
    if !HasRole(m, "candidate_tools") then None
    else match GetOr(m.fields, "content", JList([]))
      case JList(es) => Some(es)
      case JStr(t) =>
        (match parse(t)
         case None => None
         case Some(v) => (match Items(v) case Ok(xs) => Some(xs) case Err(_) => None))
      case _ => None
  }

  /** `candidate_tools` after the first loop of `fill_sample`, starting from `acc`: every
      candidate message overwrites it, without a `break`. */
  function CandidateTools(s: seq<Json>, parse: Parser, acc: seq<Json>): seq<Json>
    requires AllObjs(s)
    decreases |s|
  {
    if |s| == 0 then acc
    else
      assert AllObjs(s[1..]) by { assert forall k :: 0 <= k < |s| - 1 ==> s[1..][k] == s[k + 1]; }
      CandidateTools(s[1..], parse, match Resolved(s[0], parse) case Some(ts) => ts case None => acc)
  }

  /** The list from the last candidate message that resolves, if any. */
  function LastResolved(s: seq<Json>, parse: Parser): Option<seq<Json>>
    requires AllObjs(s)
    decreases |s|
  {
    if |s| == 0 then None
    else if Resolved(s[|s| - 1], parse).Some? then Resolved(s[|s| - 1], parse)
    else
      assert AllObjs(s[..|s| - 1]) by { assert forall k :: 0 <= k < |s| - 1 ==> s[..|s| - 1][k] == s[k]; }
      LastResolved(s[..|s| - 1], parse)
  }

  /** Position `k` resolves to `r` and no later message resolves. */
  predicate ResolvesLast(s: seq<Json>, parse: Parser, k: int, r: Option<seq<Json>>)
    requires AllObjs(s)
  {
    0 <= k < |s| && Resolved(s[k], parse) == r && forall j :: k < j < |s| ==> Resolved(s[j], parse).None?
  }

  /** `LastResolved` is what the message at some position resolves to, with no later
      message resolving; it is `None` only when no message resolves. */
  lemma {:induction false} LastResolvedSpec(s: seq<Json>, parse: Parser)
    requires AllObjs(s)
    ensures LastResolved(s, parse).Some? ==> exists k :: ResolvesLast(s, parse, k, LastResolved(s, parse))
    ensures LastResolved(s, parse).None? ==> forall k :: 0 <= k < |s| ==> Resolved(s[k], parse).None?
    decreases |s|
  {
    if |s| > 0 {
      var last := |s| - 1;
      var r := LastResolved(s, parse);
      if Resolved(s[last], parse).Some? {
        assert ResolvesLast(s, parse, last, r);
      } else {
        var init := s[..last];
        assert AllObjs(init) && forall k :: 0 <= k < last ==> init[k] == s[k];
        LastResolvedSpec(init, parse);
        assert r == LastResolved(init, parse);
        if r.Some? {
          var k :| ResolvesLast(init, parse, k, r);
          assert ResolvesLast(s, parse, k, r);
        }
      }
    }
  }



  lemma {:induction false} CandidatesAppend(a: seq<Json>, b: seq<Json>, parse: Parser, acc: seq<Json>)
    requires AllObjs(a) && AllObjs(b)
    ensures AllObjs(a + b)
    ensures CandidateTools(a + b, parse, acc) == CandidateTools(b, parse, CandidateTools(a, parse, acc))
    decreases |a|
  {
    if |a| == 0 {
      assert a + b == b;
    } else {
      assert (a + b)[0] == a[0] && (a + b)[1..] == a[1..] + b;
      assert AllObjs(a[1..]) by { assert forall k :: 0 <= k < |a| - 1 ==> a[1..][k] == a[k + 1]; }
      CandidatesAppend(a[1..], b, parse, match Resolved(a[0], parse) case Some(ts) => ts case None => acc);
    }
  }

  /** The candidates are those of the last candidate message that resolves, and stay as
      they were when none does. */
  lemma {:induction false} CandidatesFromLast(s: seq<Json>, parse: Parser, acc: seq<Json>)
    requires AllObjs(s)
    ensures CandidateTools(s, parse, acc) == match LastResolved(s, parse) case Some(ts) => ts case None => acc
    decreases |s|
  {
    if |s| > 0 {
      var init := s[..|s| - 1];
      assert AllObjs(init) by { assert forall k :: 0 <= k < |init| ==> init[k] == s[k]; }
      assert s == init + [s[|s| - 1]];
      CandidatesAppend(init, [s[|s| - 1]], parse, acc);
      CandidatesFromLast(init, parse, acc);
    }
  }

  // ================================================================ spreading insertions

  /** `xs` with the messages `extra[k]` placed right after each `xs[k]`. */
  function Spread<T>(xs: seq<T>, extra: seq<seq<T>>): seq<T>
    requires |xs| == |extra|
    decreases |xs|
  {
    if |xs| == 0 then [] else [xs[0]] + extra[0] + Spread(xs[1..], extra[1..])
  }

  /** Where `xs[k]` lands in the spread. */
  function Offset<T>(extra: seq<seq<T>>, k: nat): nat
    requires k <= |extra|
    decreases k
  {
    if k == 0 then 0 else 1 + |extra[0]| + Offset(extra[1..], k - 1)
  }

  /** The total number of messages placed. */
  function Placed<T>(extra: seq<seq<T>>): nat
    decreases |extra|
  {
    if |extra| == 0 then 0 else |extra[0]| + Placed(extra[1..])
  }

  /** The spread holds the originals and the placed messages and nothing else. */
  lemma {:induction false} SpreadLength<T>(xs: seq<T>, extra: seq<seq<T>>)
    requires |xs| == |extra|
    ensures |Spread(xs, extra)| == |xs| + Placed(extra) == Offset(extra, |xs|)
    decreases |xs|
  {
    if |xs| > 0 {
      SpreadLength(xs[1..], extra[1..]);
    }
  }

  /** `xs[k]` sits at its offset and is followed by exactly `extra[k]`. */
  lemma {:induction false} SpreadAt<T>(xs: seq<T>, extra: seq<seq<T>>, k: nat)
    requires |xs| == |extra| && k < |xs|
    ensures Offset(extra, k) + 1 + |extra[k]| == Offset(extra, k + 1) <= |Spread(xs, extra)|
    ensures Spread(xs, extra)[Offset(extra, k)] == xs[k]
    ensures Spread(xs, extra)[Offset(extra, k) + 1..Offset(extra, k + 1)] == extra[k]
    decreases k
  {
    var r := Spread(xs, extra);
    var h := 1 + |extra[0]|;
    var rest := Spread(xs[1..], extra[1..]);
    assert r == [xs[0]] + extra[0] + rest;
    if k == 0 {
      assert Offset(extra, 1) == h by { assert Offset(extra[1..], 0) == 0; }
      assert r[1..h] == extra[0];
    } else {
      SpreadAt(xs[1..], extra[1..], k - 1);
      var o := Offset(extra[1..], k - 1);
      var o' := Offset(extra[1..], k);
      assert Offset(extra, k) == h + o;
      assert Offset(extra, k + 1) == h + o';
      assert xs[1..][k - 1] == xs[k] && extra[1..][k - 1] == extra[k];
      assert r[h..] == rest;
      assert r[h + o] == rest[o];
      assert r[h + o + 1..h + o'] == rest[o + 1..o'];
    }
  }

  // ================================================================ filling a sample

  /** The call at `i` is neither last nor followed by a `tool_response`. */
  predicate Unanswered(s: seq<Json>, i: int)
    requires AllObjs(s) && 0 <= i < |s|
  {
    IsCall(s[i]) && i < |s| - 1 && !HasRole(s[i + 1], "tool_response")
  }

  predicate AllAnswered(s: seq<Json>)
    requires AllObjs(s)
  {
    forall i :: 0 <= i < |s| ==> !Unanswered(s, i)
  }

  /** The number of unanswered calls at positions `i` up to `k`. */
  function Between(s: seq<Json>, i: nat, k: nat): nat
    requires AllObjs(s) && i <= k <= |s|
    decreases k - i
  {
    if i == k then 0 else (if Unanswered(s, i) then 1 else 0) + Between(s, i + 1, k)
  }

  /** The calls `fill_sample` answers for the call message `m`: a list content, a dict
      content as a single call, and otherwise the `tool_calls` an earlier answered call left
      behind (`None` when it was never assigned, where the loop raises at once). */
  function CallsOf(m: Json, prev: Option<seq<Json>>): Option<seq<Json>>
    requires m.JObj?
  {
    match Content(m)
    case JList(es) => Some(es)
    case JObj(_) => Some([Content(m)])
    case _ => prev
  }

  /** The inserted `{"role": "tool_response", "content": responses}`. */
  function ResponseMsg(calls: Option<seq<Json>>, tools: seq<Json>): (r: Json)
    ensures r.JObj? && HasRole(r, "tool_response") && !IsCall(r)
  {
    Msg("tool_response", JObj(match calls case None => [] case Some(cs) => Responses(cs, tools, [])))
  }

  /** Builds the response message for the calls being answered. */
  type Responder = Option<seq<Json>> -> Json

  /** Every message the responder builds is a `tool_response` dict. */
  ghost predicate Responds(respond: Responder) {
    forall c :: respond(c).JObj? && HasRole(respond(c), "tool_response")
  }

  /** The responder of `fill_sample` for the candidates `tools`. */
  function Respond(tools: seq<Json>): (r: Responder)
    ensures Responds(r)
  {
    c => ResponseMsg(c, tools)
  }

  /** The second loop of `fill_sample` from position `i`, `prev` being the current
      `tool_calls` and `respond` building the inserted message. */
  function FillFrom(s: seq<Json>, respond: Responder, i: nat, prev: Option<seq<Json>>): (r: seq<Json>)
    requires AllObjs(s) && Responds(respond) && i <= |s|
    ensures AllObjs(r)
    decreases |s| - i
  {
    if i == |s| then []
    else if Unanswered(s, i) then
      [s[i], respond(CallsOf(s[i], prev))] + FillFrom(s, respond, i + 1, CallsOf(s[i], prev))
    else [s[i]] + FillFrom(s, respond, i + 1, prev)
  }

  /** `fill_sample`, on a list of message dicts. */
  function FillSample(s: seq<Json>, parse: Parser): (r: seq<Json>)
    requires AllObjs(s)
    ensures AllObjs(r)
  {
    FillFrom(s, Respond(CandidateTools(s, parse, [])), 0, None)
  }

  /** Filling adds exactly one message per unanswered call. */
  lemma {:induction false} FillLength(s: seq<Json>, respond: Responder, i: nat, prev: Option<seq<Json>>)
    requires AllObjs(s) && Responds(respond) && i <= |s|
    ensures |FillFrom(s, respond, i, prev)| == |s| - i + Between(s, i, |s|)
    decreases |s| - i
  {
    if i < |s| {
      FillLength(s, respond, i + 1, if Unanswered(s, i) then CallsOf(s[i], prev) else prev);
    }
  }

  /** The messages placed after each position when filling from `i`: one `tool_response`
      after an unanswered call, nothing elsewhere (`InsertedShape`). */
  function Inserted(s: seq<Json>, respond: Responder, i: nat, prev: Option<seq<Json>>): (r: seq<seq<Json>>)
    requires AllObjs(s) && i <= |s|
    ensures |r| == |s| - i
    decreases |s| - i
  {
    if i == |s| then []
    else
      var next := if Unanswered(s, i) then CallsOf(s[i], prev) else prev;
      (if Unanswered(s, i) then [[respond(CallsOf(s[i], prev))]] else [[]]) + Inserted(s, respond, i + 1, next)
  }

  /** Exactly one message is inserted after each unanswered call, and it is a
      `tool_response` dict. */
  lemma InsertedShape(s: seq<Json>, respond: Responder, i: nat, prev: Option<seq<Json>>)
    requires AllObjs(s) && Responds(respond) && i <= |s|
    ensures var r := Inserted(s, respond, i, prev);
            forall j :: 0 <= j < |r| ==> |r[j]| == if Unanswered(s, i + j) then 1 else 0
    ensures var r := Inserted(s, respond, i, prev);
            forall j :: 0 <= j < |r| && |r[j]| == 1 ==> r[j][0].JObj? && HasRole(r[j][0], "tool_response")
  {
    InsertedCounts(s, respond, i, prev);
    InsertedResponses(s, respond, i, prev);
  }

  lemma InsertedCounts(s: seq<Json>, respond: Responder, i: nat, prev: Option<seq<Json>>)
    requires AllObjs(s) && i <= |s|
    ensures var r := Inserted(s, respond, i, prev);
            forall j :: 0 <= j < |r| ==> |r[j]| == if Unanswered(s, i + j) then 1 else 0
  {
    forall j | 0 <= j < |s| - i
      ensures |Inserted(s, respond, i, prev)[j]| == if Unanswered(s, i + j) then 1 else 0
    {
      InsertedAt(s, respond, i, prev, j);
    }
  }

  /** What is inserted after position `i + j`, whatever calls were current at `i`. */
  lemma {:induction false} InsertedAt(s: seq<Json>, respond: Responder, i: nat, prev: Option<seq<Json>>, j: nat)
    requires AllObjs(s) && i + j < |s|
    ensures |Inserted(s, respond, i, prev)[j]| == if Unanswered(s, i + j) then 1 else 0
    decreases j
  {
    InsertedStep(s, respond, i, prev);
    if j > 0 {
      var next := if Unanswered(s, i) then CallsOf(s[i], prev) else prev;
      var ins := Inserted(s, respond, i, prev);
      InsertedAt(s, respond, i + 1, next, j - 1);
      assert ins[j] == ins[1..][j - 1];
    }
  }

  lemma {:induction false} InsertedResponses(s: seq<Json>, respond: Responder, i: nat, prev: Option<seq<Json>>)
    requires AllObjs(s) && Responds(respond) && i <= |s|
    ensures var r := Inserted(s, respond, i, prev);
            forall j :: 0 <= j < |r| && |r[j]| == 1 ==> r[j][0].JObj? && HasRole(r[j][0], "tool_response")
    decreases |s| - i
  {
    if i < |s| {
      var next := if Unanswered(s, i) then CallsOf(s[i], prev) else prev;
      InsertedResponses(s, respond, i + 1, next);
      var r: seq<seq<Json>> := Inserted(s, respond, i, prev);
      var rest: seq<seq<Json>> := Inserted(s, respond, i + 1, next);
      InsertedStep(s, respond, i, prev);
      var m := respond(CallsOf(s[i], prev));
      assert m.JObj? && HasRole(m, "tool_response");
      forall j | 0 < j < |r| && |r[j]| == 1
        ensures r[j][0].JObj? && HasRole(r[j][0], "tool_response")
      {
        assert r[j] == rest[j - 1];
      }
    }
  }

  /** Filling from `i` spreads the inserted messages after their positions. */
  lemma {:induction false} FillIsSpread(s: seq<Json>, respond: Responder, i: nat, prev: Option<seq<Json>>)
    requires AllObjs(s) && Responds(respond) && i <= |s|
    ensures FillFrom(s, respond, i, prev) == Spread(s[i..], Inserted(s, respond, i, prev))
    decreases |s| - i
  {
    if i < |s| {
      var next := if Unanswered(s, i) then CallsOf(s[i], prev) else prev;
      FillIsSpread(s, respond, i + 1, next);
      FillStep(s, respond, i, prev);
    }
  }

  /** One step of filling: the message at `i`, what is inserted after it, and the rest. */
  lemma FillStep(s: seq<Json>, respond: Responder, i: nat, prev: Option<seq<Json>>)
    requires AllObjs(s) && Responds(respond) && i < |s|
    ensures var next := if Unanswered(s, i) then CallsOf(s[i], prev) else prev;
            var ins := Inserted(s, respond, i, prev);
            FillFrom(s, respond, i, prev) == [s[i]] + ins[0] + FillFrom(s, respond, i + 1, next)
            && Spread(s[i..], ins) == [s[i]] + ins[0] + Spread(s[i + 1..], Inserted(s, respond, i + 1, next))
  {
    var next := if Unanswered(s, i) then CallsOf(s[i], prev) else prev;
    FillFromStep(s, respond, i, prev);
    InsertedStep(s, respond, i, prev);
    SpreadStep(s[i..], Inserted(s, respond, i, prev));
    assert s[i..][1..] == s[i + 1..] && s[i..][0] == s[i];
  }

  /** Filling from `i` keeps `s[i]`, adds a response after it when it is an unanswered
      call, and goes on from `i + 1`. */
  lemma FillFromStep(s: seq<Json>, respond: Responder, i: nat, prev: Option<seq<Json>>)
    requires AllObjs(s) && Responds(respond) && i < |s|
    ensures Unanswered(s, i) ==>
              FillFrom(s, respond, i, prev) == [s[i]] + [respond(CallsOf(s[i], prev))] + FillFrom(s, respond, i + 1, CallsOf(s[i], prev))
    ensures !Unanswered(s, i) ==> FillFrom(s, respond, i, prev) == [s[i]] + FillFrom(s, respond, i + 1, prev)
  {
  }

  /** The insertions from `i` are those after `s[i]` followed by those from `i + 1`. */
  lemma InsertedStep(s: seq<Json>, respond: Responder, i: nat, prev: Option<seq<Json>>)
    requires AllObjs(s) && i < |s|
    ensures var next := if Unanswered(s, i) then CallsOf(s[i], prev) else prev;
            var ins := Inserted(s, respond, i, prev);
            ins[1..] == Inserted(s, respond, i + 1, next)
            && ins[0] == (if Unanswered(s, i) then [respond(CallsOf(s[i], prev))] else [])
  {
  }

  /** Spreading a non-empty sequence places `extra[0]` after its first element. */
  lemma SpreadStep<T>(xs: seq<T>, extra: seq<seq<T>>)
    requires |xs| == |extra| > 0
    ensures Spread(xs, extra) == [xs[0]] + extra[0] + Spread(xs[1..], extra[1..])
  {
  }

  /** `fill_sample` keeps every original message in order and places exactly one
      `tool_response` right after each unanswered call and nothing anywhere else: the
      result is the sample with `ins[k]` spread after each `s[k]`. */
  lemma FillLayout(s: seq<Json>, parse: Parser)
    requires AllObjs(s)
    ensures var ins := Inserted(s, Respond(CandidateTools(s, parse, [])), 0, None);
            FillSample(s, parse) == Spread(s, ins) &&
            (forall k :: 0 <= k < |s| ==> |ins[k]| == if Unanswered(s, k) then 1 else 0) &&
            (forall k :: 0 <= k < |s| && Unanswered(s, k) ==> ins[k][0].JObj? && HasRole(ins[k][0], "tool_response"))
  {
    FillIsSpread(s, Respond(CandidateTools(s, parse, [])), 0, None);
    InsertedShape(s, Respond(CandidateTools(s, parse, [])), 0, None);
    assert s[0..] == s;
  }

  /** Position by position: `s[k]` keeps its relative order at its offset in the filled
      sample, and the next message is the inserted response exactly when `s[k]` is an
      unanswered call. */
  lemma FillPlaces(s: seq<Json>, parse: Parser, k: nat)
    requires AllObjs(s) && k < |s|
    ensures var ins := Inserted(s, Respond(CandidateTools(s, parse, [])), 0, None);
            var r := FillSample(s, parse);
            Offset(ins, k + 1) == Offset(ins, k) + (if Unanswered(s, k) then 2 else 1) <= |r| &&
            r[Offset(ins, k)] == s[k] &&
            (Unanswered(s, k) ==> HasRole(r[Offset(ins, k) + 1], "tool_response"))
  {
    var ins := Inserted(s, Respond(CandidateTools(s, parse, [])), 0, None);
    FillLayout(s, parse);
    SpreadAt(s, ins, k);
    if Unanswered(s, k) {
      assert FillSample(s, parse)[Offset(ins, k) + 1] == FillSample(s, parse)[Offset(ins, k) + 1..Offset(ins, k + 1)][0];
    }
  }

  /** A message followed by a sample without unanswered calls, where the message is not a
      call or the sample starts with a response, has no unanswered call. */
  lemma AnsweredCons(m: Json, rest: seq<Json>)
    requires m.JObj? && AllObjs(rest) && AllAnswered(rest)
    requires IsCall(m) && |rest| > 0 ==> HasRole(rest[0], "tool_response")
    ensures AllObjs([m] + rest) && AllAnswered([m] + rest)
  {
    var r := [m] + rest;
    forall k | 0 <= k < |r|
      ensures r[k].JObj? && !Unanswered(r, k)
    {
      if k > 0 {
        assert r[k] == rest[k - 1];
        assert !Unanswered(rest, k - 1);
        if k < |r| - 1 {
          assert r[k + 1] == rest[k];
        }
      }
    }
  }

  /** After filling no call is left unanswered. */
  lemma {:induction false} FillAnswersAll(s: seq<Json>, respond: Responder, i: nat, prev: Option<seq<Json>>)
    requires AllObjs(s) && Responds(respond) && i <= |s|
    ensures AllAnswered(FillFrom(s, respond, i, prev))
    decreases |s| - i
  {
    if i < |s| {
      var next := if Unanswered(s, i) then CallsOf(s[i], prev) else prev;
      FillAnswersAll(s, respond, i + 1, next);
      if Unanswered(s, i) {
        AnswerInserted(s, respond, i, prev);
      } else {
        AnswerKept(s, respond, i, prev);
      }
    }
  }

  /** Filling answers an unanswered call at `i` with the inserted response. */
  lemma AnswerInserted(s: seq<Json>, respond: Responder, i: nat, prev: Option<seq<Json>>)
    requires AllObjs(s) && Responds(respond) && i < |s| && Unanswered(s, i)
    requires AllAnswered(FillFrom(s, respond, i + 1, CallsOf(s[i], prev)))
    ensures AllAnswered(FillFrom(s, respond, i, prev))
  {
    var rest := FillFrom(s, respond, i + 1, CallsOf(s[i], prev));
    var resp := respond(CallsOf(s[i], prev));
    assert resp.JObj? && HasRole(resp, "tool_response");
    AnsweredByResponse(s[i], resp, rest);
    FillFromStep(s, respond, i, prev);
  }

  /** A message, then a `tool_response`, then an answered rest leaves nothing unanswered. */
  lemma AnsweredByResponse(m: Json, resp: Json, rest: seq<Json>)
    requires m.JObj? && resp.JObj? && HasRole(resp, "tool_response") && AllObjs(rest) && AllAnswered(rest)
    ensures AllObjs([m] + [resp] + rest) && AllAnswered([m] + [resp] + rest)
  {
    var tail := [resp] + rest;
    assert AllObjs(tail) && AllAnswered(tail) by {
      assert !IsCall(resp);
      AnsweredCons(resp, rest);
    }
    assert AllAnswered([m] + tail) by {
      assert tail[0] == resp;
      AnsweredCons(m, tail);
    }
    assert [m] + [resp] + rest == [m] + tail;
  }

  /** A message at `i` that is not an unanswered call stays answered after filling. */
  lemma AnswerKept(s: seq<Json>, respond: Responder, i: nat, prev: Option<seq<Json>>)
    requires AllObjs(s) && Responds(respond) && i < |s| && !Unanswered(s, i)
    requires AllAnswered(FillFrom(s, respond, i + 1, prev))
    ensures AllAnswered(FillFrom(s, respond, i, prev))
  {
    var rest := FillFrom(s, respond, i + 1, prev);
    FillFromStep(s, respond, i, prev);
    if i + 1 < |s| {
      FillFromStep(s, respond, i + 1, prev);
      assert rest[0] == s[i + 1];
    }
    AnsweredCons(s[i], rest);
  }

  /** A sample without unanswered calls is left as it is. */
  lemma {:induction false} FillKeepsAnswered(s: seq<Json>, respond: Responder, i: nat, prev: Option<seq<Json>>)
    requires AllObjs(s) && Responds(respond) && i <= |s| && AllAnswered(s)
    ensures FillFrom(s, respond, i, prev) == s[i..]
    decreases |s| - i
  {
    if i < |s| {
      FillKeepsAnswered(s, respond, i + 1, prev);
      assert s[i..] == [s[i]] + s[i + 1..];
    }
  }

  lemma CandidatesSingle(m: Json, parse: Parser, acc: seq<Json>)
    requires m.JObj?
    ensures CandidateTools([m], parse, acc) == match Resolved(m, parse) case Some(ts) => ts case None => acc
  {
    assert [m][1..] == [];
  }

  /** Inserted responses are not candidate messages, so the candidates stay the same. */
  lemma {:induction false} FillKeepsCandidates(s: seq<Json>, respond: Responder, i: nat, prev: Option<seq<Json>>,
                                               parse: Parser, acc: seq<Json>)
    requires AllObjs(s) && Responds(respond) && i <= |s|
    ensures AllObjs(s[i..])
    ensures CandidateTools(FillFrom(s, respond, i, prev), parse, acc) == CandidateTools(s[i..], parse, acc)
    decreases |s| - i
  {
    assert forall k :: 0 <= k < |s| - i ==> s[i..][k] == s[i + k];
    if i < |s| {
      var next := if Unanswered(s, i) then CallsOf(s[i], prev) else prev;
      var head := if Unanswered(s, i) then [s[i], respond(CallsOf(s[i], prev))] else [s[i]];
      var rest := FillFrom(s, respond, i + 1, next);
      assert FillFrom(s, respond, i, prev) == head + rest;
      var acc' := match Resolved(s[i], parse) case Some(ts) => ts case None => acc;
      CandidatesSingle(s[i], parse, acc);
      if Unanswered(s, i) {
        var resp := respond(CallsOf(s[i], prev));
        assert head == [s[i]] + [resp];
        CandidatesAppend([s[i]], [resp], parse, acc);
        CandidatesSingle(resp, parse, acc');
      }
      CandidatesAppend(head, rest, parse, acc);
      FillKeepsCandidates(s, respond, i + 1, next, parse, acc');
      assert s[i..][1..] == s[i + 1..];
    }
  }

  /** `fill_sample` is idempotent: a filled sample has no unanswered call left and the
      same candidates, so a second pass changes nothing. */
  lemma FillIdempotent(s: seq<Json>, parse: Parser)
    requires AllObjs(s)
    ensures CandidateTools(FillSample(s, parse), parse, []) == CandidateTools(s, parse, [])
    ensures FillSample(FillSample(s, parse), parse) == FillSample(s, parse)
  {
    var respond := Respond(CandidateTools(s, parse, []));
    var r := FillSample(s, parse);
    FillKeepsCandidates(s, respond, 0, None, parse, []);
    assert s[0..] == s;
    FillAnswersAll(s, respond, 0, None);
    FillKeepsAnswered(r, respond, 0, None);
    assert r[0..] == r;
  }
}

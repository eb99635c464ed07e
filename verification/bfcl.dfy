/** Shaping one Berkeley Function Calling Leaderboard record (a question line and its
    possible-answer line, both already parsed) into a canonical sample: an `id`, the
    candidate tools, the user query and the ground-truth calls. Records that carry a
    system prompt are skipped. Reading the files and collecting the tool set for the
    tool dump are outside the model. */
module Bfcl {
  import opened Wrappers
  import opened JsonValues
  import opened Text
  import opened Messages

  // ================================================================ Python indexing

  /** `j[key]` with a string key: only a dict can be indexed by a string. */
  function GetItem(j: Json, key: string): (r: Result<Json>)
    ensures j.JObj? && HasKey(j.fields, key) ==> r == Ok(GetOrNull(j.fields, key))
    ensures j.JObj? && !HasKey(j.fields, key) ==> r == Err(KeyError)
    ensures !j.JObj? ==> r == Err(TypeError)
  {
    if !j.JObj? then Err(TypeError)
    else if HasKey(j.fields, key) then Ok(GetOrNull(j.fields, key))
    else Err(KeyError)
  }

  /** `j[n]` with an integer index: a list element, a one-character string, `KeyError` on
      a dict (its keys are strings), `IndexError` past the end. */
  function At(j: Json, n: nat): (r: Result<Json>)
    ensures j.JList? && n < |j.elems| ==> r == Ok(j.elems[n])
    ensures j.JStr? && n < |j.s| ==> r == Ok(JStr([j.s[n]]))
    ensures r.Err? <==> !(j.JList? && n < |j.elems|) && !(j.JStr? && n < |j.s|)
  {
    match j
    case JList(es) => if n < |es| then Ok(es[n]) else Err(IndexError)
    case JStr(s) => if n < |s| then Ok(JStr([s[n]])) else Err(IndexError)
    case JObj(_) => Err(KeyError)
    case _ => Err(TypeError)
  }

  // ================================================================ ground truth

  /** `{"name": k, "parameters": v, "depend_on": []}`. */
  function ToolCall(name: string, parameters: Json): (r: Json)
    ensures r.JObj? && KeySeq(r.fields) == ["name", "parameters", "depend_on"]
  {
    JObj([Field("name", JStr(name)), Field("parameters", parameters), Field("depend_on", JList([]))])
  }

  /** One ground-truth entry `{name: args}`: its first item becomes a tool call; a
      non-dict has no `items` and an empty dict has no first item. */
  function ShapeCall(call: Json): (r: Result<Json>)
    ensures r.Ok? <==> call.JObj? && |call.fields| > 0
    ensures r.Ok? ==> r.value == ToolCall(call.fields[0].key, call.fields[0].val)
    ensures !call.JObj? ==> r == Err(AttributeError)
  {
    if !call.JObj? then Err(AttributeError)
    else if |call.fields| == 0 then Err(IndexError)
    else Ok(ToolCall(call.fields[0].key, call.fields[0].val))
  }

  /** The ground-truth entries shaped in order, or the error of the first bad one. */
  function ShapeCalls(calls: seq<Json>): (r: Result<seq<Json>>)
    ensures r.Ok? <==> forall i :: 0 <= i < |calls| ==> ShapeCall(calls[i]).Ok?
    ensures r.Ok? ==> |r.value| == |calls| && forall i :: 0 <= i < |calls| ==> ShapeCall(calls[i]) == Ok(r.value[i])
    ensures r.Err? ==> exists i :: 0 <= i < |calls| && ShapeCall(calls[i]) == Err(r.error)
  {
    if |calls| == 0 then Ok([])
    else match ShapeCall(calls[0])
      case Err(e) => Err(e)
      case Ok(c) =>
        assert forall i :: 0 < i < |calls| ==> calls[1..][i - 1] == calls[i];
        match ShapeCalls(calls[1..])
        case Err(e) =>
          assert ShapeCall(calls[1..][0]) == Err(e) || exists i :: 1 <= i < |calls| && ShapeCall(calls[i]) == Err(e);
          Err(e)
        case Ok(rest) => Ok([c] + rest)
  }

  // ================================================================ the record fix for simple_363

  const OldName: string := "find_closest"
  const NewName: string := "restaurant_search.find_closest"

  /** `json.loads(json.dumps(j).replace(OldName, NewName))`, taken as the replacement
      inside every key and every string value: the name is letters and `_` only, so it
      cannot straddle a string boundary or sit in a number or a literal. An occurrence
      whose `f` is the last letter of an escape `json.dumps` writes (`\f`, or a `\u`
      escape ending in `f`) is not covered. */
  function Rename(j: Json): (r: Json)
    ensures r.JStr? == j.JStr? && r.JList? == j.JList? && r.JObj? == j.JObj?
    ensures j.JList? ==> |r.elems| == |j.elems|
    ensures j.JObj? ==> |r.fields| == |j.fields|
    ensures !j.JStr? && !j.JList? && !j.JObj? ==> r == j
    decreases Size(j), 0
  {
    match j
    case JStr(s) => JStr(ReplaceAll(s, OldName, NewName))
    case JList(es) => JList(RenameSeq(es))
    case JObj(fs) => JObj(RenameFields(fs))
    case _ => j
  }

  function RenameSeq(es: seq<Json>): (r: seq<Json>)
    ensures |r| == |es|
    decreases SizeSeq(es), 1
  {
    if |es| == 0 then [] else [Rename(es[0])] + RenameSeq(es[1..])
  }

  function RenameFields(fs: seq<Field>): (r: seq<Field>)
    ensures |r| == |fs|
    decreases SizeFields(fs), 1
  {
    if |fs| == 0 then []
    else [Field(ReplaceAll(fs[0].key, OldName, NewName), Rename(fs[0].val))] + RenameFields(fs[1..])
  }

  /** No key and no string inside `j` mentions the old name. */
  predicate Clean(j: Json)
    decreases Size(j), 0
  {
    match j
    case JStr(s) => !Contains(s, OldName)
    case JList(es) => CleanSeq(es)
    case JObj(fs) => CleanFields(fs)
    case _ => true
  }

  predicate CleanSeq(es: seq<Json>)
    decreases SizeSeq(es), 1
  {
    |es| == 0 || (Clean(es[0]) && CleanSeq(es[1..]))
  }

  predicate CleanFields(fs: seq<Field>)
    decreases SizeFields(fs), 1
  {
    |fs| == 0 || (!Contains(fs[0].key, OldName) && Clean(fs[0].val) && CleanFields(fs[1..]))
  }

  /** A value that never mentions the old name is left as it is. */
  lemma {:induction false} RenameClean(j: Json)
    requires Clean(j)
    ensures Rename(j) == j
    decreases Size(j), 0
  {
    match j
    case JList(es) => RenameSeqClean(es);
    case JObj(fs) => RenameFieldsClean(fs);
    case _ =>
  }

  lemma {:induction false} RenameSeqClean(es: seq<Json>)
    requires CleanSeq(es)
    ensures RenameSeq(es) == es
    decreases SizeSeq(es), 1
  {
    if |es| > 0 {
      RenameClean(es[0]);
      RenameSeqClean(es[1..]);
    }
  }

  lemma {:induction false} RenameFieldsClean(fs: seq<Field>)
    requires CleanFields(fs)
    ensures RenameFields(fs) == fs
    decreases SizeFields(fs), 1
  {
    if |fs| > 0 {
      RenameClean(fs[0].val);
      RenameFieldsClean(fs[1..]);
    }
  }

  // ================================================================ one record

  /** The answer id that one known question id is paired with in the data. */
  const RepairedAnswerId: string := "live_multiple_1052-279-0"
  const RepairedQuestionId: string := "live_multiple_1052-79-0"

  /** The id pair the known data error is repaired for. */
  predicate IsRepairPair(ansId: Json, questionId: Json) {
    PyEq(ansId, JStr(RepairedAnswerId)) && PyEq(questionId, JStr(RepairedQuestionId))
  }

  /** `a + b` succeeds for two strings, two lists or two numbers, so the failing
      `assert`'s message can be built and `AssertionError` is what propagates. */
  predicate Addable(a: Json, b: Json) {
    (a.JStr? && b.JStr?) || (a.JList? && b.JList?) || (IsNumber(a) && IsNumber(b))
  }

  /** The id check: the question's id, the repaired id, or the failure of the `assert`. */
  function CheckedId(ansId: Json, questionId: Json): (r: Result<Json>)
    ensures r.Ok? <==> IsRepairPair(ansId, questionId) || PyEq(ansId, questionId)
    ensures r.Ok? ==> r.value == if IsRepairPair(ansId, questionId) then ansId else questionId
  {
    if IsRepairPair(ansId, questionId) then Ok(ansId)
    else if PyEq(ansId, questionId) then Ok(questionId)
    else if Addable(ansId, questionId) then Err(AssertionError)
    else Err(TypeError)
  }

  /** The system prompt and the user query of the unwrapped question list. */
  datatype Query = Query(system: Json, user: Json)

  /** Two messages are system + user; otherwise the first message is the user query and
      the system prompt is empty. */
  function SplitQuery(query: Json): (r: Result<Query>)
  {
    match PyLen(query)
    case Err(e) => Err(e)
    case Ok(n) =>
      if n == 2 then
        match At(query, 0)
        case Err(e) => Err(e)
        case Ok(m0) =>
          match GetItem(m0, "content")
          case Err(e) => Err(e)
          case Ok(system) =>
            match At(query, 1)
            case Err(e) => Err(e)
            case Ok(m1) =>
              match GetItem(m1, "content")
              case Err(e) => Err(e)
              case Ok(user) => Ok(Query(system, user))
      else
        match At(query, 0)
        case Err(e) => Err(e)
        case Ok(m0) =>
          match GetItem(m0, "content")
          case Err(e) => Err(e)
          case Ok(user) => Ok(Query(JStr(""), user))
  }

  /** The question list after the length check and the unwrapping of a nested list. */
  function Unwrapped(query: Json): (r: Result<Json>)
    ensures r.Ok? ==> PyLen(query) == Ok(1)
    ensures r.Ok? && At(query, 0).Ok? && At(query, 0).value.JList? ==> r.value == At(query, 0).value
    ensures r.Ok? && At(query, 0).Ok? && !At(query, 0).value.JList? ==> r.value == query
  {
    match PyLen(query)
    case Err(e) => Err(e)
    case Ok(n) =>
      if n != 1 then Err(AssertionError)
      else match At(query, 0)
        case Err(e) => Err(e)
        case Ok(q0) => Ok(if q0.JList? then q0 else query)
  }

  /** The four messages of a shaped record. */
  function RecordOf(id: string, tools: Json, user: Json, calls: seq<Json>): (r: Sample)
    ensures |r| == 4
    ensures r[0].role == "id" && r[1].role == "candidate_tools" && r[2].role == "user"
    ensures r[3].role == "tool_call_ground_truth"
  {
    [Message("id", JStr("BFCL_" + id), None), Message("candidate_tools", tools, None),
     Message("user", user, None), Message("tool_call_ground_truth", JList(calls), None)]
  }

  /** The body of the loop in `read_one_dataset` for one question and its answer: the
      shaped record, `None` when the record is skipped for its system prompt, or the
      exception that stops the reading. */
  function ShapeRecord(question: Json, answer: Json): (r: Result<Option<Sample>>)
    ensures r.Ok? ==> question.JObj? && HasKey(question.fields, "question") && HasKey(question.fields, "function")
                      && HasKey(question.fields, "id")
    ensures r.Ok? ==> answer.JObj? && HasKey(answer.fields, "id") && HasKey(answer.fields, "ground_truth")
    ensures r.Ok? ==> (IsRepairPair(GetOrNull(answer.fields, "id"), GetOrNull(question.fields, "id")) ||
                       PyEq(GetOrNull(answer.fields, "id"), GetOrNull(question.fields, "id")))
    ensures r.Ok? && r.value.Some? ==>
              (var rec := r.value.value;
               |rec| == 4 && rec[0].role == "id" && rec[1].role == "candidate_tools" && rec[2].role == "user" &&
               rec[3].role == "tool_call_ground_truth" &&
               rec[1].content == GetOrNull(question.fields, "function") &&
               Items(GetOrNull(answer.fields, "ground_truth")).Ok? &&
               rec[3].content.JList? && |rec[3].content.elems| == |Items(GetOrNull(answer.fields, "ground_truth")).value|)
  {
    match GetItem(question, "question")
    case Err(e) => Err(e)
    case Ok(query) =>
      match GetItem(question, "function")
      case Err(e) => Err(e)
      case Ok(tools) =>
        match Items(tools)
        case Err(e) => Err(e)
        case Ok(_) =>
          match GetItem(question, "id")
          case Err(e) => Err(e)
          case Ok(qid) =>
            match GetItem(answer, "id")
            case Err(e) => Err(e)
            case Ok(aid) =>
              match CheckedId(aid, qid)
              case Err(e) => Err(e)
              case Ok(id) =>
                match GetItem(answer, "ground_truth")
                case Err(e) => Err(e)
                case Ok(gt) =>
                  match Items(gt)
                  case Err(e) => Err(e)
                  case Ok(entries) =>
                    match ShapeCalls(entries)
                    case Err(e) => Err(e)
                    case Ok(calls) => Finish(query, tools, id, calls)
  }

  /** The steps after the ground truth is shaped: the question list, the system-prompt
      skip, the fix for `simple_363` and the `"BFCL_" + id` concatenation. */
  function Finish(query: Json, tools: Json, id: Json, calls: seq<Json>): (r: Result<Option<Sample>>)
    ensures r.Ok? ==> Unwrapped(query).Ok? && SplitQuery(Unwrapped(query).value).Ok? &&
                      PyLen(SplitQuery(Unwrapped(query).value).value.system).Ok?
    ensures r.Ok? ==> (r.value.None? <==> PyLen(SplitQuery(Unwrapped(query).value).value.system).value > 0)
    ensures r.Ok? && r.value.Some? ==>
              id.JStr? && r.value.value == RecordOf(id.s, tools, SplitQuery(Unwrapped(query).value).value.user,
                                                    if id.s == "simple_363" then RenameSeq(calls) else calls)
  {
    match Unwrapped(query)
    case Err(e) => Err(e)
    case Ok(q) =>
      match SplitQuery(q)
      case Err(e) => Err(e)
      case Ok(parts) =>
        match PyLen(parts.system)
        case Err(e) => Err(e)
        case Ok(n) =>
          if n > 0 then Ok(None)
          else
            var shaped := if PyEq(id, JStr("simple_363")) then RenameSeq(calls) else calls;
            if !id.JStr? then Err(TypeError)
            else Ok(Some(RecordOf(id.s, tools, parts.user, shaped)))
  }

  // ================================================================ what a record becomes

  /** A question holding one message (bare or wrapped in a nested list) with no system
      prompt becomes the four-message record: the id with its `BFCL_` prefix, the tools,
      the message's content and the shaped calls, untouched unless the id is `simple_363`. */
  lemma FinishUserOnly(m: Json, nested: bool, tools: Json, id: string, calls: seq<Json>)
    requires m.JObj? && HasKey(m.fields, "content")
    requires id != "simple_363"
    ensures var query := if nested then JList([JList([m])]) else JList([m]);
            Finish(query, tools, JStr(id), calls) == Ok(Some(RecordOf(id, tools, GetOrNull(m.fields, "content"), calls)))
  {
    var query := if nested then JList([JList([m])]) else JList([m]);
    assert Unwrapped(query) == Ok(JList([m]));
    assert SplitQuery(JList([m])) == Ok(Query(JStr(""), GetOrNull(m.fields, "content")));
  }

  /** A question whose first message carries a non-empty system prompt is skipped,
      whatever its id and its calls. */
  lemma FinishSystemSkipped(sm: Json, um: Json, tools: Json, id: Json, calls: seq<Json>)
    requires sm.JObj? && HasKey(sm.fields, "content") && um.JObj? && HasKey(um.fields, "content")
    requires GetOrNull(sm.fields, "content").JStr? && |GetOrNull(sm.fields, "content").s| > 0
    ensures Finish(JList([JList([sm, um])]), tools, id, calls) == Ok(None)
  {
    var q := JList([sm, um]);
    assert Unwrapped(JList([q])) == Ok(q);
    assert SplitQuery(q) == Ok(Query(GetOrNull(sm.fields, "content"), GetOrNull(um.fields, "content")));
  }

  /** For `simple_363` the calls are renamed; calls that never mention the old name come
      out as they went in. */
  lemma FinishSimple363Clean(m: Json, tools: Json, calls: seq<Json>)
    requires m.JObj? && HasKey(m.fields, "content")
    requires CleanSeq(calls)
    ensures Finish(JList([m]), tools, JStr("simple_363"), calls) ==
            Ok(Some(RecordOf("simple_363", tools, GetOrNull(m.fields, "content"), calls)))
  {
    RenameSeqClean(calls);
    assert SplitQuery(JList([m])) == Ok(Query(JStr(""), GetOrNull(m.fields, "content")));
  }
}

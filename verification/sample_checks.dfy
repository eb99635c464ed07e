/** The per-sample checks of the dataset analyzer: the sample id, the role sequence, the
    tool calls and their responses, and the `<link>` dependency marker. Every message is a
    dict here; what happens otherwise is decided by the statistics layer. */
module SampleChecks {
  import opened Wrappers
  import opened JsonValues
  import opened RawSamples
  import Text

  /** One reported problem; positions are 0-based indices into the checked sequence. */
  datatype Issue =
    | EmptySample
    | TooShort(expected: string)
    | WrongRole(pos: nat, expected: string, actual: Json)
    | UnknownRole(pos: nat, role: Json)
    | NotAfterUser(pos: nat, role: Json)
    | ResponseWithoutCall(pos: nat, prev: Json)
    | UserWithoutAssistant(pos: nat, prev: Json)
    | MissingResponse(pos: nat, actual: Json)
    | ResponseNotDict(pos: nat)
    | CountMismatch(pos: nat, calls: nat, responses: nat)
    | ValueNotDict(pos: nat, tool: string)

  // ================================================================ sample id

  predicate IsIdMessage(m: Json) {
    m.JObj? && HasRole(m, "id")
  }

  /** The content of the first `id` message. */
  function FirstIdContent(ms: seq<Json>): (r: Option<Json>)
    ensures r.None? <==> forall i :: 0 <= i < |ms| ==> !IsIdMessage(ms[i])
    ensures r.Some? ==> exists i :: 0 <= i < |ms| && IsIdMessage(ms[i]) && r.value == Content(ms[i])
                                    && forall k :: 0 <= k < i ==> !IsIdMessage(ms[k])
  {
    if |ms| == 0 then None
    else if IsIdMessage(ms[0]) then Some(Content(ms[0]))
    else
      var r := FirstIdContent(ms[1..]);
      assert forall i :: 0 < i < |ms| ==> ms[i] == ms[1..][i - 1];
      if r.Some? then
        ghost var i :| 0 <= i < |ms[1..]| && IsIdMessage(ms[1..][i]) && r.value == Content(ms[1..][i])
                       && forall k :: 0 <= k < i ==> !IsIdMessage(ms[1..][k]);
        assert IsIdMessage(ms[i + 1]) && forall k :: 0 <= k < i + 1 ==> !IsIdMessage(ms[k]);
        r
      else r
  }

  /** The id the record declares: the first `id` message of a list, or a dict's `id` key,
      else its `data_id` key. */
  function DeclaredId(data: Json): Json {
    match data
    case JList(ms) => (match FirstIdContent(ms) case Some(c) => c case None => JNull)
    case JObj(fs) =>
      if HasKey(fs, "id") then GetOrNull(fs, "id")
      else GetOrNull(fs, "data_id")
    case _ => JNull
  }

  /** `sample_{n}`. */
  function DefaultId(n: nat): (r: Json)
    ensures r.JStr? && Text.StartsWith(r.s, "sample_")
  {
    JStr("sample_" + Text.NatToString(n))
  }

  /** The sample id: the declared id when it is truthy, otherwise `sample_{n}`. An absent,
      empty or zero id falls back, and a dict's falsy `id` does not fall through to its
      `data_id`. */
  function SampleId(data: Json, n: nat): (r: Json)
    ensures Truthy(r)
    ensures Truthy(DeclaredId(data)) ==> r == DeclaredId(data)
    ensures !Truthy(DeclaredId(data)) ==> r == DefaultId(n)
    ensures data.JObj? && HasKey(data.fields, "id") && !Truthy(GetOrNull(data.fields, "id")) ==> r == DefaultId(n)
  {
    var d := DeclaredId(data);
    if Truthy(d) then d else DefaultId(n)
  }

  // ================================================================ role sequence

  predicate IsDate(m: Json) {
    m.JObj? && HasRole(m, "current_date")
  }

  /** The first `current_date` message at or after `i`. */
  function FirstDate(ms: seq<Json>, i: nat): (r: Option<nat>)
    requires i <= |ms|
    ensures r.None? <==> forall k :: i <= k < |ms| ==> !IsDate(ms[k])
    ensures r.Some? ==> i <= r.value < |ms| && IsDate(ms[r.value]) && forall k :: i <= k < r.value ==> !IsDate(ms[k])
    decreases |ms| - i
  {
    if i == |ms| then None
    else if IsDate(ms[i]) then Some(i)
    else FirstDate(ms, i + 1)
  }

  /** The sample with its first `current_date` message removed. */
  function WithoutFirstDate(ms: seq<Json>): (r: seq<Json>)
    ensures AllObjs(ms) ==> AllObjs(r)
    ensures FirstDate(ms, 0).None? ==> r == ms
    ensures FirstDate(ms, 0).Some? ==> |r| == |ms| - 1
  {
    match FirstDate(ms, 0)
    case None => ms
    case Some(i) => ms[..i] + ms[i + 1..]
  }

  function CountDates(ms: seq<Json>): nat {
    if |ms| == 0 then 0 else (if IsDate(ms[0]) then 1 else 0) + CountDates(ms[1..])
  }

  lemma {:induction false} CountDatesAppend(a: seq<Json>, b: seq<Json>)
    ensures CountDates(a + b) == CountDates(a) + CountDates(b)
  {
    if |a| > 0 {
      assert (a + b)[0] == a[0] && (a + b)[1..] == a[1..] + b;
      CountDatesAppend(a[1..], b);
    } else {
      assert a + b == b;
    }
  }

  lemma {:induction false} NoDatesCounted(ms: seq<Json>)
    requires forall k :: 0 <= k < |ms| ==> !IsDate(ms[k])
    ensures CountDates(ms) == 0
  {
    if |ms| > 0 {
      NoDatesCounted(ms[1..]);
    }
  }

  /** Exactly one `current_date` message goes, when there is one; the others stay. */
  lemma DateRemovedOnce(ms: seq<Json>)
    ensures CountDates(WithoutFirstDate(ms)) == if CountDates(ms) == 0 then 0 else CountDates(ms) - 1
  {
    match FirstDate(ms, 0)
    case None =>
      NoDatesCounted(ms);
    case Some(i) =>
      assert ms == ms[..i] + ([ms[i]] + ms[i + 1..]);
      CountDatesAppend(ms[..i], [ms[i]] + ms[i + 1..]);
      CountDatesAppend(ms[..i], ms[i + 1..]);
      assert ([ms[i]] + ms[i + 1..])[1..] == ms[i + 1..];
  }

  /** The first three roles every sample must start with. */
  const Expected: seq<string> := ["id", "candidate_tools", "user"]

  const ValidRoles: set<string> := {"id", "candidate_tools", "user", "assistant", "tool_call", "tool_call_ground_truth", "tool_response"}

  predicate IsValidRole(role: Json) {
    role.JStr? && role.s in ValidRoles
  }

  /** One issue per position among the first three whose role is not the expected one;
      a sample too short reports the first missing role and stops. */
  function HeadIssues(p: seq<Json>, i: nat): (r: seq<Issue>)
    requires AllObjs(p) && i <= 3
    decreases 3 - i
  {
    if i == 3 then []
    else if i >= |p| then [TooShort(Expected[i])]
    else (if Role(p[i]) != JStr(Expected[i]) then [WrongRole(i, Expected[i], Role(p[i]))] else []) + HeadIssues(p, i + 1)
  }

  /** The head is right: the sample starts with `id`, `candidate_tools`, `user`. */
  lemma {:induction false} HeadIssuesMeans(p: seq<Json>)
    requires AllObjs(p)
    ensures HeadIssues(p, 0) == [] <==> |p| >= 3 && forall i :: 0 <= i < 3 ==> Role(p[i]) == JStr(Expected[i])
  {
  }

  /** A short sample reports exactly one missing role, the first one. */
  lemma {:induction false} HeadIssuesShort(p: seq<Json>, i: nat)
    requires AllObjs(p) && i <= |p| < 3
    ensures |HeadIssues(p, i)| >= 1 && HeadIssues(p, i)[|HeadIssues(p, i)| - 1] == TooShort(Expected[|p|])
    ensures forall k :: 0 <= k < |HeadIssues(p, i)| - 1 ==> HeadIssues(p, i)[k].WrongRole?
    decreases 3 - i
  {
    if i < |p| {
      HeadIssuesShort(p, i + 1);
    }
  }

  predicate FollowsUser(role: Json) {
    role == JStr("assistant") || role == JStr("tool_call") || role == JStr("tool_call_ground_truth")
  }

  /** The issues about position `i`: an unknown role is reported alone; otherwise the
      three ordering rules against the previous role. */
  function IssuesAt(p: seq<Json>, i: nat): (r: seq<Issue>)
    requires AllObjs(p) && i < |p|
  {
    var role := Role(p[i]);
    if !IsValidRole(role) then [UnknownRole(i, role)]
    else if i == 0 then []
    else
      var prev := Role(p[i - 1]);
      (if prev == JStr("user") && !FollowsUser(role) then [NotAfterUser(i, role)] else [])
      + (if role == JStr("tool_response") && prev != JStr("tool_call") then [ResponseWithoutCall(i, prev)] else [])
      + (if role == JStr("user") && i > 2 && prev != JStr("assistant") then [UserWithoutAssistant(i, prev)] else [])
  }

  /** The ordering rules as a property of one position. */
  predicate WellPlaced(p: seq<Json>, i: nat)
    requires AllObjs(p) && i < |p|
  {
    var role := Role(p[i]);
    && IsValidRole(role)
    && (i > 0 ==> (Role(p[i - 1]) == JStr("user") ==> FollowsUser(role)))
    && (i > 0 && role == JStr("tool_response") ==> Role(p[i - 1]) == JStr("tool_call"))
    && (i > 2 && role == JStr("user") ==> Role(p[i - 1]) == JStr("assistant"))
  }

  lemma IssuesAtMeans(p: seq<Json>, i: nat)
    requires AllObjs(p) && i < |p|
    ensures IssuesAt(p, i) == [] <==> WellPlaced(p, i)
  {
  }

  function OrderIssues(p: seq<Json>, i: nat): (r: seq<Issue>)
    requires AllObjs(p) && i <= |p|
    decreases |p| - i
  {
    if i == |p| then [] else IssuesAt(p, i) + OrderIssues(p, i + 1)
  }

  lemma {:induction false} OrderIssuesEmpty(p: seq<Json>, i: nat)
    requires AllObjs(p) && i <= |p|
    ensures OrderIssues(p, i) == [] <==> forall k :: i <= k < |p| ==> IssuesAt(p, k) == []
    decreases |p| - i
  {
    if i < |p| {
      OrderIssuesEmpty(p, i + 1);
      var here, rest := IssuesAt(p, i), OrderIssues(p, i + 1);
      assert OrderIssues(p, i) == here + rest;
      assert OrderIssues(p, i) == [] <==> here == [] && rest == [] by {
        assert |here + rest| == |here| + |rest|;
      }
      if here == [] && rest == [] {
        forall k | i <= k < |p|
          ensures IssuesAt(p, k) == []
        {
          if k > i {
            assert i + 1 <= k < |p|;
          }
        }
      }
    }
  }

  /** No ordering issue iff every position from `i` on is well placed. */
  lemma OrderIssuesMeans(p: seq<Json>, i: nat)
    requires AllObjs(p) && i <= |p|
    ensures OrderIssues(p, i) == [] <==> forall k :: i <= k < |p| ==> WellPlaced(p, k)
  {
    OrderIssuesEmpty(p, i);
    forall k | i <= k < |p|
      ensures IssuesAt(p, k) == [] <==> WellPlaced(p, k)
    {
      IssuesAtMeans(p, k);
    }
  }

  /** Every unknown role is reported, at its position. */
  lemma {:induction false} UnknownRolesReported(p: seq<Json>, i: nat, k: nat)
    requires AllObjs(p) && i <= k < |p| && !IsValidRole(Role(p[k]))
    ensures UnknownRole(k, Role(p[k])) in OrderIssues(p, i)
    decreases k - i
  {
    if i < k {
      UnknownRolesReported(p, i + 1, k);
    }
  }

  /** The role issues of a non-empty sample: the head check and the ordering rules, both
      on the sample without its first `current_date` message. */
  function RoleIssues(ms: seq<Json>): (r: seq<Issue>)
    requires AllObjs(ms)
  {
    var p := WithoutFirstDate(ms);
    HeadIssues(p, 0) + OrderIssues(p, 0)
  }

  /** A sample passes the role checks iff, once its first `current_date` is gone, it starts
      with `id`, `candidate_tools`, `user` and every position obeys the ordering rules. */
  lemma RoleIssuesMeans(ms: seq<Json>)
    requires AllObjs(ms)
    ensures var p := WithoutFirstDate(ms);
      RoleIssues(ms) == [] <==>
        && |p| >= 3 && (forall i :: 0 <= i < 3 ==> Role(p[i]) == JStr(Expected[i]))
        && (forall k :: 0 <= k < |p| ==> WellPlaced(p, k))
  {
    var p := WithoutFirstDate(ms);
    HeadIssuesMeans(p);
    OrderIssuesMeans(p, 0);
  }

  // ================================================================ tool calls

  /** The name a call entry names: a dict's `name`, a string itself, otherwise `None`. */
  function CallName(t: Json): Json {
    if t.JObj? then GetOrNull(t.fields, "name") else if t.JStr? then t else JNull
  }

  /** The entries of a call message's content that are checked, and the tool count the
      round contributes: a list directly, a string through the parser (an unparsable string
      counts 0 tools), anything else nothing. */
  datatype CallShape = CallShape(entries: seq<Json>, counted: seq<nat>)

  function ShapeOf(c: Json, parse: Parser): (r: CallShape)
    ensures |r.counted| <= 1
    ensures c.JList? && |c.elems| > 0 ==> r == CallShape(c.elems, [|c.elems|])
    ensures |r.counted| == 1 && r.counted[0] > 0 ==> |r.entries| == r.counted[0]
  {
    match c
    case JList(es) => if |es| == 0 then CallShape([], []) else CallShape(es, [|es|])
    case JStr(s) =>
      if |s| == 0 then CallShape([], [])
      else
        (match parse(s)
         case None => CallShape([], [0])
         case Some(v) => if v.JList? then CallShape(v.elems, [|v.elems|]) else CallShape([], []))
    case _ => CallShape([], [])
  }

  /** A call message whose content is missing or `None` fails the analyzer's assertion, and
      one whose content has no length fails `len`. */
  predicate CallContentOk(m: Json)
    requires m.JObj?
  {
    IsCall(m) ==> Content(m) != JNull && PyLen(Content(m)).Ok?
  }

  predicate IsEmptyCall(m: Json)
    requires m.JObj?
  {
    IsCall(m) && PyLen(Content(m)) == Ok(0)
  }

  function CountCalls(ms: seq<Json>): (n: nat)
    requires AllObjs(ms)
    ensures n <= |ms|
  {
    if |ms| == 0 then 0 else (if IsCall(ms[0]) then 1 else 0) + CountCalls(ms[1..])
  }

  /** The tools-per-round entries of a sample, one per counted round, in order. */
  function ToolsPerRound(ms: seq<Json>, parse: Parser): (r: seq<nat>)
    requires AllObjs(ms)
    ensures |r| <= CountCalls(ms)
  {
    if |ms| == 0 then []
    else (if IsCall(ms[0]) then ShapeOf(Content(ms[0]), parse).counted else []) + ToolsPerRound(ms[1..], parse)
  }

  /** The names of every checked call entry, in order. */
  function CallNames(ms: seq<Json>, parse: Parser): (r: seq<Json>)
    requires AllObjs(ms)
  {
    if |ms| == 0 then []
    else
      var here := if IsCall(ms[0]) then ShapeOf(Content(ms[0]), parse).entries else [];
      seq(|here|, k requires 0 <= k < |here| => CallName(here[k])) + CallNames(ms[1..], parse)
  }

  /** `x in xs` for a list. */
  predicate Member(x: Json, xs: seq<Json>) {
    exists k :: 0 <= k < |xs| && PyEq(x, xs[k])
  }

  /** A name the check rejects: truthy and not among the candidates. */
  predicate Unknown(name: Json, candidates: seq<Json>) {
    Truthy(name) && !Member(name, candidates)
  }

  /** The rejected names collected into `acc`, each only when no equal name is there yet. */
  function CollectUnknown(names: seq<Json>, candidates: seq<Json>, acc: seq<Json>): (r: seq<Json>)
    ensures |acc| <= |r| && r[..|acc|] == acc
    ensures forall k :: |acc| <= k < |r| ==> Unknown(r[k], candidates) && r[k] in names && !Member(r[k], r[..k])
  {
    if |names| == 0 then acc
    else
      var x := names[0];
      var acc' := if Unknown(x, candidates) && !Member(x, acc) then acc + [x] else acc;
      var r := CollectUnknown(names[1..], candidates, acc');
      assert r[..|acc|] == r[..|acc'|][..|acc|];
      assert forall y :: y in names[1..] ==> y in names;
      r
  }

  /** A collected name stays collected. */
  lemma MemberPrefix(x: Json, a: seq<Json>, r: seq<Json>)
    requires |a| <= |r| && r[..|a|] == a && Member(x, a)
    ensures Member(x, r)
  {
    var j :| 0 <= j < |a| && PyEq(x, a[j]);
    assert r[j] == a[j];
  }

  /** Every rejected name ends up collected, itself or as an equal name. */
  lemma {:induction false} CollectCovers(names: seq<Json>, candidates: seq<Json>, acc: seq<Json>, k: nat)
    requires k < |names| && Unknown(names[k], candidates)
    ensures var r := CollectUnknown(names, candidates, acc); names[k] in r || Member(names[k], r)
  {
    var x := names[0];
    var acc' := if Unknown(x, candidates) && !Member(x, acc) then acc + [x] else acc;
    var r := CollectUnknown(names[1..], candidates, acc');
    if k == 0 {
      if Member(x, acc) {
        MemberPrefix(x, acc, r);
      } else {
        assert r[..|acc'|] == acc' && r[|acc|] == acc'[|acc|];
      }
    } else {
      assert names[1..][k - 1] == names[k];
      CollectCovers(names[1..], candidates, acc', k - 1);
    }
  }

  /** The rejected tool names of a sample, without repeats; nothing is checked when the
      candidate list is empty. */
  function UnknownTools(ms: seq<Json>, parse: Parser, candidates: seq<Json>): (r: seq<Json>)
    requires AllObjs(ms)
    ensures |candidates| == 0 ==> r == []
    ensures forall k :: 0 <= k < |r| ==> Unknown(r[k], candidates) && r[k] in CallNames(ms, parse)
    ensures forall i, j :: 0 <= i < j < |r| ==> !PyEq(r[j], r[i])
  {
    if |candidates| == 0 then []
    else
      var r := CollectUnknown(CallNames(ms, parse), candidates, []);
      assert forall i, j :: 0 <= i < j < |r| ==> !PyEq(r[j], r[i]) by {
        forall i, j | 0 <= i < j < |r|
          ensures !PyEq(r[j], r[i])
        {
          assert r[..j][i] == r[i];
        }
      }
      r
  }

  /** A sample counts as using an unknown tool iff some checked name is rejected. */
  lemma UnknownToolsMeans(ms: seq<Json>, parse: Parser, candidates: seq<Json>)
    requires AllObjs(ms)
    ensures |candidates| > 0 ==> forall x :: x in CallNames(ms, parse) && Unknown(x, candidates) ==>
              x in UnknownTools(ms, parse, candidates) || Member(x, UnknownTools(ms, parse, candidates))
    ensures |UnknownTools(ms, parse, candidates)| > 0 <==>
              |candidates| > 0 && exists x :: x in CallNames(ms, parse) && Unknown(x, candidates)
  {
    var names := CallNames(ms, parse);
    var r := UnknownTools(ms, parse, candidates);
    forall x | |candidates| > 0 && x in names && Unknown(x, candidates)
      ensures x in r || Member(x, r)
    {
      var k :| 0 <= k < |names| && names[k] == x;
      CollectCovers(names, candidates, [], k);
    }
    if |r| > 0 {
      assert r[0] in names && Unknown(r[0], candidates);
    }
  }

  /** Positions whose tool call is not directly followed by a `tool_response`. */
  function MissingResponses(ms: seq<Json>, i: nat): (r: seq<Issue>)
    requires AllObjs(ms) && i <= |ms|
    ensures forall k :: 0 <= k < |r| ==> r[k].MissingResponse? && i <= r[k].pos < |ms| - 1
    decreases |ms| - i
  {
    if i == |ms| then []
    else
      (if IsCall(ms[i]) && i < |ms| - 1 && !HasRole(ms[i + 1], "tool_response")
       then [MissingResponse(i, Role(ms[i + 1]))] else [])
      + MissingResponses(ms, i + 1)
  }

  /** Every tool call except a last one is answered. */
  predicate Answered(ms: seq<Json>, k: nat)
    requires AllObjs(ms) && k < |ms|
  {
    IsCall(ms[k]) && k < |ms| - 1 ==> HasRole(ms[k + 1], "tool_response")
  }

  lemma {:induction false} MissingResponsesMeans(ms: seq<Json>, i: nat)
    requires AllObjs(ms) && i <= |ms|
    ensures MissingResponses(ms, i) == [] <==> forall k :: i <= k < |ms| ==> Answered(ms, k)
    decreases |ms| - i
  {
    if i < |ms| {
      MissingResponsesMeans(ms, i + 1);
      var here := if IsCall(ms[i]) && i < |ms| - 1 && !HasRole(ms[i + 1], "tool_response")
                  then [MissingResponse(i, Role(ms[i + 1]))] else [];
      assert MissingResponses(ms, i) == here + MissingResponses(ms, i + 1);
      assert here == [] <==> Answered(ms, i);
    }
  }

  /** Empty tool calls: one at the last position is allowed, every other one is invalid. */
  function EmptyAtEnd(ms: seq<Json>): (n: nat)
    requires AllObjs(ms)
    ensures n <= 1
  {
    if |ms| > 0 && IsEmptyCall(ms[|ms| - 1]) then 1 else 0
  }

  /** The number of empty tool calls before the last position. */
  function EmptyBeforeEnd(ms: seq<Json>): nat
    requires AllObjs(ms)
  {
    if |ms| <= 1 then 0 else (if IsEmptyCall(ms[0]) then 1 else 0) + EmptyBeforeEnd(ms[1..])
  }

  lemma {:induction false} EmptyBeforeEndZero(ms: seq<Json>)
    requires AllObjs(ms)
    ensures EmptyBeforeEnd(ms) == 0 <==> forall k :: 0 <= k < |ms| - 1 ==> !IsEmptyCall(ms[k])
  {
    if |ms| > 1 {
      EmptyBeforeEndZero(ms[1..]);
      assert forall k :: 0 < k < |ms| - 1 ==> ms[k] == ms[1..][k - 1];
    }
  }

  // ================================================================ candidate tools

  /** `tool.get("name") if isinstance(tool, dict) else tool`. */
  function CandidateName(t: Json): Json {
    if t.JObj? then GetOrNull(t.fields, "name") else t
  }

  function Names(ts: seq<Json>): (r: seq<Json>)
    ensures |r| == |ts| && forall k :: 0 <= k < |ts| ==> r[k] == CandidateName(ts[k])
  {
    seq(|ts|, k requires 0 <= k < |ts| => CandidateName(ts[k]))
  }

  /** The candidate tool names and their count, from the first `candidate_tools` message:
      a list directly, a string through the parser when the result is iterable, anything
      else (or a failed parse) no tools. */
  datatype Candidates = Candidates(names: seq<Json>, count: nat)

  function CandidatesOf(c: Json, parse: Parser): (r: Candidates)
    ensures |r.names| == r.count
    ensures c.JList? ==> r == Candidates(Names(c.elems), |c.elems|)
  {
    match c
    case JList(ts) => Candidates(Names(ts), |ts|)
    case JStr(s) =>
      (match parse(s)
       case Some(v) => (match Items(v) case Ok(ts) => Candidates(Names(ts), |ts|) case Err(_) => Candidates([], 0))
       case None => Candidates([], 0))
    case _ => Candidates([], 0)
  }

  function FindCandidates(ms: seq<Json>, parse: Parser): (r: Candidates)
    requires AllObjs(ms)
    ensures (forall k :: 0 <= k < |ms| ==> !HasRole(ms[k], "candidate_tools")) ==> r == Candidates([], 0)
    ensures |r.names| == r.count
  {
    if |ms| == 0 then Candidates([], 0)
    else if HasRole(ms[0], "candidate_tools") then CandidatesOf(GetOr(ms[0].fields, "content", JList([])), parse)
    else FindCandidates(ms[1..], parse)
  }

  // ================================================================ dependencies

  /** Whether `sub` occurs inside some string of the value (keys included). The analyzer
      searches the `json.dumps` text; for the markers `<link>` and `</link>`, which hold no
      character `json.dumps` escapes and no quote, an occurrence in the text is an
      occurrence inside one string of the value. */
  function Mentions(j: Json, sub: string): bool
    decreases Size(j), 0
  {
    match j
    case JStr(s) => Text.Contains(s, sub)
    case JList(es) => MentionsSeq(es, sub)
    case JObj(fs) => MentionsFields(fs, sub)
    case _ => false
  }

  function MentionsSeq(es: seq<Json>, sub: string): bool
    decreases SizeSeq(es), 1
  {
    |es| > 0 && (Mentions(es[0], sub) || MentionsSeq(es[1..], sub))
  }

  function MentionsFields(fs: seq<Field>, sub: string): bool
    decreases SizeFields(fs), 1
  {
    |fs| > 0 && (Text.Contains(fs[0].key, sub) || Mentions(fs[0].val, sub) || MentionsFields(fs[1..], sub))
  }

  predicate Linked(m: Json)
    requires m.JObj?
  {
    IsCall(m) && Mentions(Content(m), "<link>") && Mentions(Content(m), "</link>")
  }

  /** A sample has a tool dependency iff one of its tool calls carries both markers; it is
      counted once however many calls do. */
  function HasDependency(ms: seq<Json>): (r: bool)
    requires AllObjs(ms)
    ensures r <==> exists k :: 0 <= k < |ms| && Linked(ms[k])
  {
    if |ms| == 0 then false
    else
      assert forall k :: 0 < k < |ms| ==> ms[k] == ms[1..][k - 1];
      Linked(ms[0]) || HasDependency(ms[1..])
  }

  // ================================================================ tool responses

  /** The first key of a response dict whose value is not a dict, reported alone. */
  function FirstNonDict(fs: seq<Field>, pos: nat): (r: seq<Issue>)
    ensures |r| <= 1
    ensures r == [] <==> forall k :: 0 <= k < |fs| ==> fs[k].val.JObj?
    ensures |r| == 1 ==> exists k :: 0 <= k < |fs| && !fs[k].val.JObj? && r[0] == ValueNotDict(pos, fs[k].key)
                                     && forall l :: 0 <= l < k ==> fs[l].val.JObj?
  {
    if |fs| == 0 then []
    else if !fs[0].val.JObj? then [ValueNotDict(pos, fs[0].key)]
    else
      var r := FirstNonDict(fs[1..], pos);
      assert forall k :: 0 < k < |fs| ==> fs[k] == fs[1..][k - 1];
      if |r| == 1 then
        ghost var k :| 0 <= k < |fs[1..]| && !fs[1..][k].val.JObj? && r[0] == ValueNotDict(pos, fs[1..][k].key)
                       && forall l :: 0 <= l < k ==> fs[1..][l].val.JObj?;
        assert !fs[k + 1].val.JObj? && forall l :: 0 <= l < k + 1 ==> fs[l].val.JObj?;
        r
      else r
  }

  /** A `tool_response` directly after a tool call. */
  predicate AnswersCall(prev: Json, cur: Json)
    requires prev.JObj? && cur.JObj?
  {
    HasRole(cur, "tool_response") && IsCall(prev)
  }

  /** The number of calls a call content makes, when the check can tell: a list's length,
      or the length of the list a string parses to. */
  function CallCount(c: Json, parse: Parser): Option<nat> {
    match c
    case JList(es) => Some(|es|)
    case JStr(s) => (match parse(s) case Some(JList(es)) => Some(|es|) case _ => None)
    case _ => None
  }

  /** The response issues at position `i`: the response must be a dict; with a list of calls
      it must hold one entry per call and every entry must be a dict; with a string of calls
      only the count is compared. A missing call content reads as `[]`, a missing response
      content as `{}`. */
  function ResponseIssuesAt(prev: Json, cur: Json, i: nat, parse: Parser): (r: seq<Issue>)
    requires prev.JObj? && cur.JObj?
    ensures |r| <= 2
  {
    if !AnswersCall(prev, cur) then []
    else
      var call := GetOr(prev.fields, "content", JList([]));
      var resp := GetOr(cur.fields, "content", JObj([]));
      if !resp.JObj? then [ResponseNotDict(i)]
      else
        (match CallCount(call, parse)
         case Some(n) => if n != |resp.fields| then [CountMismatch(i, n, |resp.fields|)] else []
         case None => [])
        + (if call.JList? then FirstNonDict(resp.fields, i) else [])
  }

  /** The response format rule as a property of one position. */
  predicate WellAnswered(prev: Json, cur: Json, parse: Parser)
    requires prev.JObj? && cur.JObj?
  {
    var call := GetOr(prev.fields, "content", JList([]));
    var resp := GetOr(cur.fields, "content", JObj([]));
    AnswersCall(prev, cur) ==>
      && resp.JObj?
      && (CallCount(call, parse).Some? ==> CallCount(call, parse).value == |resp.fields|)
      && (call.JList? ==> forall k :: 0 <= k < |resp.fields| ==> resp.fields[k].val.JObj?)
  }

  lemma ResponseIssuesAtMeans(prev: Json, cur: Json, i: nat, parse: Parser)
    requires prev.JObj? && cur.JObj?
    ensures ResponseIssuesAt(prev, cur, i, parse) == [] <==> WellAnswered(prev, cur, parse)
  {
  }

  function ResponseIssues(ms: seq<Json>, i: nat, parse: Parser): (r: seq<Issue>)
    requires AllObjs(ms) && 1 <= i <= |ms| + 1
    decreases |ms| + 1 - i
  {
    if i >= |ms| then [] else ResponseIssuesOf(ms, i, parse) + ResponseIssues(ms, i + 1, parse)
  }

  function ResponseIssuesOf(ms: seq<Json>, i: nat, parse: Parser): seq<Issue>
    requires AllObjs(ms) && 1 <= i < |ms|
  {
    ResponseIssuesAt(ms[i - 1], ms[i], i, parse)
  }

  lemma {:induction false} ResponseIssuesEmpty(ms: seq<Json>, i: nat, parse: Parser)
    requires AllObjs(ms) && 1 <= i <= |ms| + 1
    ensures ResponseIssues(ms, i, parse) == [] <==> forall k :: i <= k < |ms| ==> ResponseIssuesOf(ms, k, parse) == []
    decreases |ms| + 1 - i
  {
    if i < |ms| {
      ResponseIssuesEmpty(ms, i + 1, parse);
    }
  }

  /** No response issue iff every response that answers a call is well formed. */
  lemma ResponseIssuesMeans(ms: seq<Json>, parse: Parser)
    requires AllObjs(ms)
    ensures ResponseIssues(ms, 1, parse) == [] <==> forall k :: 1 <= k < |ms| ==> WellAnswered(ms[k - 1], ms[k], parse)
  {
    ResponseIssuesEmpty(ms, 1, parse);
    forall k | 1 <= k < |ms|
      ensures ResponseIssuesOf(ms, k, parse) == [] <==> WellAnswered(ms[k - 1], ms[k], parse)
    {
      ResponseIssuesAtMeans(ms[k - 1], ms[k], k, parse);
    }
  }
}

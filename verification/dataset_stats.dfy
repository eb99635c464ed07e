/** The statistics the dataset analyzer folds over samples, files and datasets: counters
    and lists that are added and concatenated, then averaged and turned into percentages.
    Loading the files and printing the report are outside the model; a file arrives as the
    list of records it holds. */
module DatasetStats {
  import opened Wrappers
  import opened JsonValues
  import opened RawSamples
  import opened SampleChecks

  /** An issue, labelled with the id of the sample it was found in. */
  datatype Report = Report(id: Json, issue: Issue)

  /** A sample that names tools missing from its candidate list. */
  datatype CallReport = CallReport(id: Json, invalid: seq<Json>, candidates: seq<Json>)

  datatype Stats = Stats(
    total: nat,
    formatErrors: seq<Report>,
    userTurns: seq<nat>,
    candidateCounts: seq<nat>,
    callRounds: seq<nat>,
    toolsPerRound: seq<nat>,
    withDependencies: nat,
    emptyAtEnd: nat,
    invalidEmpty: nat,
    missingResponses: seq<Report>,
    roleIssues: seq<Report>,
    invalidCalls: seq<CallReport>,
    invalidCallCount: nat,
    responseIssues: seq<Report>,
    responseIssueCount: nat)

  const Empty: Stats := Stats(0, [], [], [], [], [], 0, 0, 0, [], [], [], 0, [], 0)

  /** `update_overall_stats`: counters add up, lists are concatenated. */
  function Merge(a: Stats, b: Stats): (r: Stats)
    ensures r.total == a.total + b.total
    ensures r.roleIssues == a.roleIssues + b.roleIssues && r.userTurns == a.userTurns + b.userTurns
  {
    Stats(
      a.total + b.total,
      a.formatErrors + b.formatErrors,
      a.userTurns + b.userTurns,
      a.candidateCounts + b.candidateCounts,
      a.callRounds + b.callRounds,
      a.toolsPerRound + b.toolsPerRound,
      a.withDependencies + b.withDependencies,
      a.emptyAtEnd + b.emptyAtEnd,
      a.invalidEmpty + b.invalidEmpty,
      a.missingResponses + b.missingResponses,
      a.roleIssues + b.roleIssues,
      a.invalidCalls + b.invalidCalls,
      a.invalidCallCount + b.invalidCallCount,
      a.responseIssues + b.responseIssues,
      a.responseIssueCount + b.responseIssueCount)
  }

  /** Merging starts from the empty statistics and does not depend on how files are grouped. */
  lemma MergeMonoid(a: Stats, b: Stats, c: Stats)
    ensures Merge(Empty, a) == a && Merge(a, Empty) == a
    ensures Merge(Merge(a, b), c) == Merge(a, Merge(b, c))
  {
    assert a.formatErrors + [] == a.formatErrors && [] + a.formatErrors == a.formatErrors;
    assert a.userTurns + [] == a.userTurns && [] + a.userTurns == a.userTurns;
    assert a.candidateCounts + [] == a.candidateCounts && [] + a.candidateCounts == a.candidateCounts;
    assert a.callRounds + [] == a.callRounds && [] + a.callRounds == a.callRounds;
    assert a.toolsPerRound + [] == a.toolsPerRound && [] + a.toolsPerRound == a.toolsPerRound;
    assert a.missingResponses + [] == a.missingResponses && [] + a.missingResponses == a.missingResponses;
    assert a.roleIssues + [] == a.roleIssues && [] + a.roleIssues == a.roleIssues;
    assert a.invalidCalls + [] == a.invalidCalls && [] + a.invalidCalls == a.invalidCalls;
    assert a.responseIssues + [] == a.responseIssues && [] + a.responseIssues == a.responseIssues;
  }

  /** What every statistics record the analyzer builds satisfies: per-sample counters never
      exceed the sample count, one user-turn and one round entry per analysed sample, one
      counted response issue per listed one, and no format error (empty samples are skipped
      before the format check). */
  predicate Consistent(s: Stats) {
    && s.withDependencies <= s.total
    && s.emptyAtEnd <= s.total
    && s.invalidEmpty <= s.total
    && s.invalidCallCount <= s.total
    && s.invalidCallCount == |s.invalidCalls|
    && |s.userTurns| <= s.total && |s.callRounds| == |s.userTurns|
    && s.responseIssueCount == |s.responseIssues|
    && s.formatErrors == []
  }

  lemma MergeConsistent(a: Stats, b: Stats)
    requires Consistent(a) && Consistent(b)
    ensures Consistent(Merge(a, b))
  {
  }

  // ================================================================ one sample

  function Labelled(id: Json, issues: seq<Issue>): (r: seq<Report>)
    ensures |r| == |issues| && forall k :: 0 <= k < |r| ==> r[k] == Report(id, issues[k])
  {
    seq(|issues|, k requires 0 <= k < |issues| => Report(id, issues[k]))
  }

  /** `check_format_and_roles`: an empty sample is a format error; otherwise the role
      issues. */
  function FormatAndRoles(ms: seq<Json>, id: Json): (r: (seq<Report>, seq<Report>))
    requires AllObjs(ms)
    ensures |ms| == 0 <==> r.0 == [Report(id, EmptySample)]
    ensures |ms| > 0 ==> r.0 == [] && r.1 == Labelled(id, RoleIssues(ms))
  {
    if |ms| == 0 then ([Report(id, EmptySample)], []) else ([], Labelled(id, RoleIssues(ms)))
  }

  function CountUsers(ms: seq<Json>): (n: nat)
    requires AllObjs(ms)
    ensures n <= |ms|
  {
    if |ms| == 0 then 0 else (if HasRole(ms[0], "user") then 1 else 0) + CountUsers(ms[1..])
  }

  predicate AllStrings(xs: seq<Json>) {
    forall k :: 0 <= k < |xs| ==> xs[k].JStr?
  }

  /** The messages the analyzer can go through without raising: every message a dict,
      every role hashable, every tool call with a sized, non-`None` content, and, when
      unknown tools are reported, only strings among them and among the candidates (the
      warning joins both lists). */
  predicate Analyzable(ms: seq<Json>, parse: Parser) {
    && AllObjs(ms)
    && (forall k :: 0 <= k < |ms| ==> !Role(ms[k]).JList? && !Role(ms[k]).JObj?)
    && (forall k :: 0 <= k < |ms| ==> CallContentOk(ms[k]))
    && (var c := FindCandidates(ms, parse).names;
        |UnknownTools(ms, parse, c)| > 0 ==> AllStrings(UnknownTools(ms, parse, c)) && AllStrings(c))
  }

  /** The invalid empty tool calls a sample adds: the sample is counted once when some
      empty tool call is not at the last position. */
  function InvalidEmpty(ms: seq<Json>): (n: nat)
    requires AllObjs(ms)
    ensures n <= 1
    ensures n == 1 <==> exists k :: 0 <= k < |ms| - 1 && IsEmptyCall(ms[k])
  {
    EmptyBeforeEndZero(ms);
    if EmptyBeforeEnd(ms) > 0 then 1 else 0
  }

  /** As written, the counter grows by one for every such call. */
  function InvalidEmptyAsWritten(ms: seq<Json>): nat
    requires AllObjs(ms)
  {
    EmptyBeforeEnd(ms)
  }

  /** The statistics one non-empty, analysable sample contributes. */
  function SampleDelta(ms: seq<Json>, id: Json, parse: Parser): (r: Stats)
    requires AllObjs(ms) && |ms| > 0
    ensures Consistent(r) && r.total == 1
    ensures r.callRounds == [CountCalls(ms)] && r.userTurns == [CountUsers(ms)]
    ensures r.withDependencies == 1 <==> exists k :: 0 <= k < |ms| && Linked(ms[k])
    ensures r.emptyAtEnd == EmptyAtEnd(ms) && r.invalidEmpty == InvalidEmpty(ms)
    ensures r.roleIssues == Labelled(id, RoleIssues(ms))
    ensures r.missingResponses == Labelled(id, MissingResponses(ms, 0))
    ensures r.responseIssues == Labelled(id, ResponseIssues(ms, 1, parse))
    ensures r.invalidCallCount == 1 <==>
              exists x :: x in CallNames(ms, parse) && Unknown(x, FindCandidates(ms, parse).names) && |FindCandidates(ms, parse).names| > 0
  {
    var cands := FindCandidates(ms, parse);
    var unknown := UnknownTools(ms, parse, cands.names);
    var roles := FormatAndRoles(ms, id);
    var responses := ResponseIssues(ms, 1, parse);
    UnknownToolsMeans(ms, parse, cands.names);
    Stats(
      1,
      roles.0,
      [CountUsers(ms)],
      if cands.count > 0 then [cands.count] else [],
      [CountCalls(ms)],
      ToolsPerRound(ms, parse),
      if HasDependency(ms) then 1 else 0,
      EmptyAtEnd(ms),
      InvalidEmpty(ms),
      Labelled(id, MissingResponses(ms, 0)),
      roles.1,
      if |unknown| > 0 then [CallReport(id, unknown, cands.names)] else [],
      if |unknown| > 0 then 1 else 0,
      Labelled(id, responses),
      |responses|)
  }

  /** One record of a file: counted, normalised, skipped when empty, otherwise checked.
      A record the analyzer cannot go through raises, which loses the whole file. */
  function AnalyzeRecord(s: Stats, data: Json, parse: Parser): (r: Result<Stats>)
    ensures var sample := NormalizeSample(data);
      r.Err? <==> Truthy(sample) && !(sample.JList? && Analyzable(sample.elems, parse))
    ensures r.Ok? ==> r.value.total == s.total + 1
    ensures r.Ok? && !Truthy(NormalizeSample(data)) ==> r.value == s.(total := s.total + 1)
  {
    var sample := NormalizeSample(data);
    if !Truthy(sample) then Ok(s.(total := s.total + 1))
    else if !sample.JList? || !Analyzable(sample.elems, parse) then Err(TypeError)
    else Ok(Merge(s, SampleDelta(sample.elems, SampleId(data, s.total + 1), parse)))
  }

  /** Whether a record raises does not depend on the statistics gathered so far. */
  lemma RecordErrFree(s: Stats, t: Stats, data: Json, parse: Parser)
    ensures AnalyzeRecord(s, data, parse).Err? == AnalyzeRecord(t, data, parse).Err?
  {
  }

  /** Analysing a record keeps the statistics consistent. */
  lemma RecordConsistent(s: Stats, data: Json, parse: Parser)
    requires Consistent(s) && AnalyzeRecord(s, data, parse).Ok?
    ensures Consistent(AnalyzeRecord(s, data, parse).value)
  {
    var sample := NormalizeSample(data);
    if Truthy(sample) {
      MergeConsistent(s, SampleDelta(sample.elems, SampleId(data, s.total + 1), parse));
    }
  }

  function AnalyzeRecords(s: Stats, datas: seq<Json>, parse: Parser): (r: Result<Stats>)
    decreases |datas|
  {
    if |datas| == 0 then Ok(s)
    else
      var s' :- AnalyzeRecord(s, datas[0], parse);
      AnalyzeRecords(s', datas[1..], parse)
  }

  /** Each record the loop gets through adds one to the total. */
  lemma {:induction false} AnalyzeRecordsTotal(s: Stats, datas: seq<Json>, parse: Parser)
    ensures AnalyzeRecords(s, datas, parse).Ok? ==> AnalyzeRecords(s, datas, parse).value.total == s.total + |datas|
    decreases |datas|
  {
    if |datas| > 0 && AnalyzeRecord(s, datas[0], parse).Ok? {
      AnalyzeRecordsTotal(AnalyzeRecord(s, datas[0], parse).value, datas[1..], parse);
    }
  }

  /** The loop keeps the statistics consistent. */
  lemma {:induction false} AnalyzeRecordsConsistent(s: Stats, datas: seq<Json>, parse: Parser)
    requires Consistent(s)
    ensures AnalyzeRecords(s, datas, parse).Ok? ==> Consistent(AnalyzeRecords(s, datas, parse).value)
    decreases |datas|
  {
    if |datas| > 0 && AnalyzeRecord(s, datas[0], parse).Ok? {
      RecordConsistent(s, datas[0], parse);
      AnalyzeRecordsConsistent(AnalyzeRecord(s, datas[0], parse).value, datas[1..], parse);
    }
  }

  /** The loop raises exactly when one of the records raises on its own. */
  lemma {:induction false} AnalyzeRecordsErr(s: Stats, datas: seq<Json>, parse: Parser)
    ensures AnalyzeRecords(s, datas, parse).Err? <==> exists k :: 0 <= k < |datas| && AnalyzeRecord(Empty, datas[k], parse).Err?
    decreases |datas|
  {
    if |datas| > 0 {
      RecordErrFree(s, Empty, datas[0], parse);
      if AnalyzeRecord(s, datas[0], parse).Ok? {
        AnalyzeRecordsErr(AnalyzeRecord(s, datas[0], parse).value, datas[1..], parse);
        assert forall k :: 0 < k < |datas| ==> datas[k] == datas[1..][k - 1];
      }
    }
  }

  /** `analyze_file`: the statistics of the file's records, or the empty statistics when a
      record raises. */
  function AnalyzeFile(datas: seq<Json>, parse: Parser): (r: Stats)
    ensures Consistent(r)
    ensures (forall k :: 0 <= k < |datas| ==> AnalyzeRecord(Empty, datas[k], parse).Ok?) ==> r.total == |datas|
    ensures (exists k :: 0 <= k < |datas| && AnalyzeRecord(Empty, datas[k], parse).Err?) ==> r == Empty
  {
    AnalyzeRecordsTotal(Empty, datas, parse);
    AnalyzeRecordsConsistent(Empty, datas, parse);
    AnalyzeRecordsErr(Empty, datas, parse);
    match AnalyzeRecords(Empty, datas, parse)
    case Ok(s) => s
    case Err(_) => Empty
  }

  /** `analyze_dataset`: the file statistics merged in order. */
  function AnalyzeFiles(files: seq<seq<Json>>, parse: Parser): (r: Stats)
    ensures Consistent(r)
  {
    if |files| == 0 then Empty
    else
      var r := Merge(AnalyzeFiles(files[..|files| - 1], parse), AnalyzeFile(files[|files| - 1], parse));
      MergeConsistent(AnalyzeFiles(files[..|files| - 1], parse), AnalyzeFile(files[|files| - 1], parse));
      r
  }

  function TotalOf(files: seq<seq<Json>>, parse: Parser): nat {
    if |files| == 0 then 0 else TotalOf(files[..|files| - 1], parse) + AnalyzeFile(files[|files| - 1], parse).total
  }

  /** The overall sample count is the sum of the files' counts, each file adding its records
      or nothing when it was lost. */
  lemma {:induction false} AnalyzeFilesTotal(files: seq<seq<Json>>, parse: Parser)
    ensures AnalyzeFiles(files, parse).total == TotalOf(files, parse)
  {
    if |files| > 0 {
      AnalyzeFilesTotal(files[..|files| - 1], parse);
    }
  }

  // ================================================================ averages

  function SumNat(xs: seq<nat>): nat {
    if |xs| == 0 then 0 else xs[0] + SumNat(xs[1..])
  }

  /** The mean of a list, or 0 when it is empty. */
  function MeanOf(xs: seq<nat>): real {
    if |xs| == 0 then 0.0 else SumNat(xs) as real / |xs| as real
  }

  /** `count / total * 100`, or 0 when there is no sample. */
  function PercentOf(count: nat, total: nat): real {
    if total > 0 then (count as real / total as real) * 100.0 else 0.0
  }

  datatype Averages = Averages(
    userTurns: real, candidateTools: real, callRounds: real, toolsPerRound: real,
    dependencies: real, emptyAtEnd: real, invalidEmpty: real, invalidCalls: real)

  /** `calculate_averages`. */
  function CalculateAverages(s: Stats): (r: Averages)
    ensures |s.userTurns| == 0 ==> r.userTurns == 0.0
    ensures s.total == 0 ==> r.dependencies == 0.0 && r.emptyAtEnd == 0.0 && r.invalidEmpty == 0.0 && r.invalidCalls == 0.0
  {
    Averages(MeanOf(s.userTurns), MeanOf(s.candidateCounts), MeanOf(s.callRounds), MeanOf(s.toolsPerRound),
             PercentOf(s.withDependencies, s.total), PercentOf(s.emptyAtEnd, s.total),
             PercentOf(s.invalidEmpty, s.total), PercentOf(s.invalidCallCount, s.total))
  }

  lemma {:induction false} SumNatBounds(xs: seq<nat>, lo: nat, hi: nat)
    requires forall k :: 0 <= k < |xs| ==> lo <= xs[k] <= hi
    ensures lo * |xs| <= SumNat(xs) <= hi * |xs|
  {
    if |xs| > 0 {
      assert forall k :: 0 < k < |xs| ==> xs[k] == xs[1..][k - 1];
      SumNatBounds(xs[1..], lo, hi);
      MulSucc(lo, |xs[1..]|);
      MulSucc(hi, |xs[1..]|);
    }
  }

  lemma MulSucc(a: nat, n: nat)
    ensures a * (n + 1) == a + a * n
  {
  }

  lemma DivBounds(lo: real, hi: real, x: real, n: real)
    requires n > 0.0 && lo * n <= x <= hi * n
    ensures lo <= x / n <= hi
  {
  }

  /** A mean lies between the smallest and the largest entry. */
  lemma MeanWithin(xs: seq<nat>, lo: nat, hi: nat)
    requires |xs| > 0 && forall k :: 0 <= k < |xs| ==> lo <= xs[k] <= hi
    ensures lo as real <= MeanOf(xs) <= hi as real
  {
    SumNatBounds(xs, lo, hi);
    DivBounds(lo as real, hi as real, SumNat(xs) as real, |xs| as real);
  }

  lemma PercentWithin(count: nat, total: nat)
    requires count <= total
    ensures 0.0 <= PercentOf(count, total) <= 100.0
  {
    if total > 0 {
      DivBounds(0.0, 1.0, count as real, total as real);
    }
  }

  /** Every percentage of the analyzer's statistics lies in [0, 100]. */
  lemma PercentagesWithin(s: Stats)
    requires Consistent(s)
    ensures var a := CalculateAverages(s);
      && 0.0 <= a.dependencies <= 100.0 && 0.0 <= a.emptyAtEnd <= 100.0
      && 0.0 <= a.invalidEmpty <= 100.0 && 0.0 <= a.invalidCalls <= 100.0
  {
    PercentWithin(s.withDependencies, s.total);
    PercentWithin(s.emptyAtEnd, s.total);
    PercentWithin(s.invalidEmpty, s.total);
    PercentWithin(s.invalidCallCount, s.total);
  }

  // ================================================================ the counter as written

  /** A sample, asking `q`, whose first two tool calls are empty and not last. */
  function TwoEmpty(q: Json): seq<Json> {
    [Msg("id", JStr("s")), Msg("candidate_tools", JList([])), Msg("user", q),
     Msg("tool_call", JList([])), Msg("tool_call", JList([])), Msg("assistant", JStr("a"))]
  }

  lemma EmptyBeforeEndCons(m: Json, ms: seq<Json>)
    requires m.JObj? && AllObjs(ms) && |ms| > 0
    ensures AllObjs([m] + ms)
    ensures EmptyBeforeEnd([m] + ms) == (if IsEmptyCall(m) then 1 else 0) + EmptyBeforeEnd(ms)
  {
    var xs := [m] + ms;
    assert xs[0] == m && xs[1..] == ms;
    assert AllObjs(xs) by {
      forall i | 0 <= i < |xs| ensures xs[i].JObj? {
        if i > 0 { assert xs[i] == ms[i - 1]; }
      }
    }
  }

  lemma EmptyCallMsg()
    ensures IsEmptyCall(Msg("tool_call", JList([])))
  {
    assert PyLen(JList([])) == Ok(0);
  }

  lemma OtherRoleMsg(role: string, content: Json)
    requires role != "tool_call" && role != "tool_call_ground_truth"
    ensures !IsEmptyCall(Msg(role, content))
  {
  }

  /** Two empty calls after three non-calls and before a last message count twice. */
  lemma TwoEmptyPattern(i: Json, c: Json, u: Json, call: Json, z: Json)
    requires i.JObj? && c.JObj? && u.JObj? && call.JObj? && z.JObj?
    requires IsEmptyCall(call) && !IsEmptyCall(i) && !IsEmptyCall(c) && !IsEmptyCall(u)
    ensures AllObjs([i, c, u, call, call, z]) && EmptyBeforeEnd([i, c, u, call, call, z]) == 2
  {
    var s1 := [z];
    var s2 := [call] + s1;
    var s3 := [call] + s2;
    var s4 := [u] + s3;
    var s5 := [c] + s4;
    assert AllObjs(s1) && EmptyBeforeEnd(s1) == 0;
    EmptyBeforeEndCons(call, s1);
    EmptyBeforeEndCons(call, s2);
    EmptyBeforeEndCons(u, s3);
    EmptyBeforeEndCons(c, s4);
    EmptyBeforeEndCons(i, s5);
    assert [i] + s5 == [i, c, u, call, call, z];
  }

  /** The sample holds two empty tool calls before its last position. */
  lemma TwoEmptyCalls(q: Json)
    ensures AllObjs(TwoEmpty(q)) && EmptyBeforeEnd(TwoEmpty(q)) == 2
  {
    var ms := TwoEmpty(q);
    EmptyCallMsg();
    OtherRoleMsg("id", JStr("s"));
    OtherRoleMsg("candidate_tools", JList([]));
    OtherRoleMsg("user", q);
    TwoEmptyPattern(ms[0], ms[1], ms[2], ms[3], ms[5]);
    assert ms == [ms[0], ms[1], ms[2], ms[3], ms[3], ms[5]];
  }

  /** As written, a file holding only this sample reports 2 invalid empty tool calls for 1
      sample, a percentage of 200; counted per sample it reports 100. */
  lemma InvalidEmptyAsWrittenExceeds(q: Json)
    ensures AllObjs(TwoEmpty(q))
    ensures InvalidEmptyAsWritten(TwoEmpty(q)) == 2 && PercentOf(InvalidEmptyAsWritten(TwoEmpty(q)), 1) == 200.0
    ensures InvalidEmpty(TwoEmpty(q)) == 1 && PercentOf(InvalidEmpty(TwoEmpty(q)), 1) == 100.0
  {
    TwoEmptyCalls(q);
  }
}

/** The evaluation loops: scoring every round of a dataset, aggregating the round metrics
    per sample (every round in `avg` mode; in sequential mode only up to and including the
    first round that is not an exact match), and normalising the sums into the report.

    Model inference is outside the model: `Model` maps each prompt to the parsed answer
    (`think`, `content` and the list of tool calls). */
module Evaluate {
  import opened Wrappers
  import opened JsonValues
  import Text
  import opened Comparators
  import opened Scoring
  import opened Messages
  import opened Rounds

  datatype Parsed = Parsed(think: string, content: string, toolCall: seq<Json>)

  type Model = Prompt -> Parsed

  // ================================================================ scoring the rounds

  /** The comparator is chosen by the role of the round's last message; an empty round has
      no last message and raises `IndexError`. */
  function ScoreRound(round: Sample, out: Parsed, strict: bool): (r: Result<RoundMetrics>)
    ensures |round| == 0 ==> r == Err(IndexError)
    ensures r.Ok? ==> MetricsInUnit(r.value)
  {
    if |round| == 0 then Err(IndexError)
    else
      var last := round[|round| - 1];
      RoundScore(last.content, JList(out.toolCall), strict, if last.role == "tool_call" then Simple else Bfcl)
  }

  predicate MetricsInUnit(m: RoundMetrics) {
    InUnit(m.allTools) && InUnit(m.perTool) && InUnit(m.toolAcc) && InUnit(m.paramAcc)
  }

  /** How a round is scored against an answer. */
  type Scorer = (Sample, Parsed) -> Result<RoundMetrics>

  function ScorerOf(strict: bool): Scorer {
    (round, out) => ScoreRound(round, out, strict)
  }

  /** A scored round: the answer, the golden answer, the sample id and the metrics. */
  datatype Scored = Scored(out: Parsed, golden: Json, sampleId: Json, metrics: RoundMetrics)

  /** The scoring loop over `new_dataset[k..]`, reading `prompt_list` and `output_list` at
      the same position: a round past the end of the prompt list raises `IndexError`. */
  function ScoreFrom(rounds: seq<Sample>, prompts: seq<Prompt>, model: Model, score: Scorer, k: nat)
    : (r: Result<seq<Scored>>)
    requires k <= |rounds| && forall i :: 0 <= i < |rounds| ==> IsRound(rounds[i])
    ensures r.Ok? ==> |r.value| == |rounds| - k
    ensures r.Ok? && k < |rounds| ==> |rounds| <= |prompts|
    decreases |rounds| - k
  {
    if k == |rounds| then Ok([])
    else if k >= |prompts| then Err(IndexError)
    else
      var round := rounds[k];
      var out := model(prompts[k]);
      var m := score(round, out);
      if m.Err? then Err(m.error)
      else
        var rest := ScoreFrom(rounds, prompts, model, score, k + 1);
        if rest.Err? then rest
        else Ok([Scored(out, round[|round| - 1].content, round[0].content, m.value)] + rest.value)
  }

  /** Entry `i` of the scored list is round `k + i` scored against the answer to prompt
      `k + i`, with the round's last content as the golden answer. */
  lemma {:induction false} ScoreFromRound(rounds: seq<Sample>, prompts: seq<Prompt>, model: Model, score: Scorer, k: nat, i: nat)
    requires k <= |rounds| && forall i :: 0 <= i < |rounds| ==> IsRound(rounds[i])
    requires ScoreFrom(rounds, prompts, model, score, k).Ok? && i < |rounds| - k
    ensures var s := ScoreFrom(rounds, prompts, model, score, k).value[i];
      && k + i < |prompts|
      && s.out == model(prompts[k + i])
      && score(rounds[k + i], s.out) == Ok(s.metrics)
      && s.golden == rounds[k + i][|rounds[k + i]| - 1].content
      && s.sampleId == rounds[k + i][0].content
    decreases i
  {
    if i > 0 {
      var r := ScoreFrom(rounds, prompts, model, score, k);
      var rest := ScoreFrom(rounds, prompts, model, score, k + 1);
      assert r.value[i] == rest.value[i - 1];
      ScoreFromRound(rounds, prompts, model, score, k + 1, i - 1);
    }
  }

  /** A round whose scoring raises makes the whole loop raise. */
  lemma {:induction false} ScoreFromFails(rounds: seq<Sample>, prompts: seq<Prompt>, model: Model, score: Scorer, k: nat, i: nat)
    requires k <= |rounds| && forall i :: 0 <= i < |rounds| ==> IsRound(rounds[i])
    requires k <= i < |rounds| && i < |prompts| && score(rounds[i], model(prompts[i])).Err?
    ensures ScoreFrom(rounds, prompts, model, score, k).Err?
    decreases i - k
  {
    if k < i {
      ScoreFromFails(rounds, prompts, model, score, k + 1, i);
    }
  }

  /** Every metric of every scored round lies in [0, 1]. */
  lemma ScoredInUnit(rounds: seq<Sample>, prompts: seq<Prompt>, model: Model, strict: bool)
    requires forall i :: 0 <= i < |rounds| ==> IsRound(rounds[i])
    requires ScoreFrom(rounds, prompts, model, ScorerOf(strict), 0).Ok?
    ensures forall i :: 0 <= i < |rounds| ==> MetricsInUnit(ScoreFrom(rounds, prompts, model, ScorerOf(strict), 0).value[i].metrics)
  {
    var ss := ScoreFrom(rounds, prompts, model, ScorerOf(strict), 0).value;
    forall i | 0 <= i < |rounds|
      ensures MetricsInUnit(ss[i].metrics)
    {
      ScoredAt(rounds, prompts, model, ScorerOf(strict), i);
      ScorerInUnit(strict, rounds[i], ss[i].out, ss[i].metrics);
    }
  }

  lemma ScoredAt(rounds: seq<Sample>, prompts: seq<Prompt>, model: Model, score: Scorer, i: nat)
    requires forall i :: 0 <= i < |rounds| ==> IsRound(rounds[i])
    requires ScoreFrom(rounds, prompts, model, score, 0).Ok? && i < |rounds|
    ensures var s := ScoreFrom(rounds, prompts, model, score, 0).value[i];
      score(rounds[i], s.out) == Ok(s.metrics)
  {
    ScoreFromRound(rounds, prompts, model, score, 0, i);
  }

  lemma ScorerInUnit(strict: bool, round: Sample, out: Parsed, m: RoundMetrics)
    requires ScorerOf(strict)(round, out) == Ok(m)
    ensures MetricsInUnit(m)
  {
    assert ScoreRound(round, out, strict) == Ok(m);
  }

  // ================================================================ sums

  /** The length sums and the metric sums; `seen` records whether the metric keys exist. */
  datatype Totals = Totals(think: nat, content: nat, toolCall: nat, seen: bool, scores: RoundMetrics)

  const NoMetrics := RoundMetrics(0.0, 0.0, 0.0, 0.0)
  const NoTotals := Totals(0, 0, 0, false, NoMetrics)

  function AddMetrics(a: RoundMetrics, b: RoundMetrics): RoundMetrics {
    RoundMetrics(a.allTools + b.allTools, a.perTool + b.perTool, a.toolAcc + b.toolAcc, a.paramAcc + b.paramAcc)
  }

  /** `v / data_num[i]` for every metric. */
  function Scale(m: RoundMetrics, n: nat): RoundMetrics
    requires n > 0
  {
    RoundMetrics(m.allTools / n as real, m.perTool / n as real, m.toolAcc / n as real, m.paramAcc / n as real)
  }

  /** Every metric of `x` lies between that of `lo` and that of `lo` plus `w`. */
  predicate Within(x: RoundMetrics, lo: RoundMetrics, w: real) {
    && lo.allTools <= x.allTools <= lo.allTools + w
    && lo.perTool <= x.perTool <= lo.perTool + w
    && lo.toolAcc <= x.toolAcc <= lo.toolAcc + w
    && lo.paramAcc <= x.paramAcc <= lo.paramAcc + w
  }

  lemma WithinChain(x: RoundMetrics, y: RoundMetrics, z: RoundMetrics, w1: real, w2: real)
    requires Within(y, x, w1) && Within(z, y, w2)
    ensures Within(z, x, w1 + w2)
  {
  }

  lemma ScaleWithin(m: RoundMetrics, n: nat)
    requires MetricsInUnit(m) && n > 0
    ensures Within(AddMetrics(NoMetrics, Scale(m, n)), NoMetrics, 1.0 / n as real)
  {
    DivUnit(m.allTools, n);
    DivUnit(m.perTool, n);
    DivUnit(m.toolAcc, n);
    DivUnit(m.paramAcc, n);
  }

  lemma DivUnit(v: real, n: nat)
    requires InUnit(v) && n > 0
    ensures 0.0 <= v / n as real <= 1.0 / n as real
  {
  }

  /** The sums of `a` are at most those of `b`, and `a` has metric keys only if `b` has. */
  predicate Below(a: Totals, b: Totals) {
    && a.scores.allTools <= b.scores.allTools && a.scores.perTool <= b.scores.perTool
    && a.scores.toolAcc <= b.scores.toolAcc && a.scores.paramAcc <= b.scores.paramAcc
    && (a.seen ==> b.seen)
  }

  /** The lengths of the answer parts are summed over every round. */
  function AddLengths(t: Totals, out: Parsed): Totals {
    t.(think := t.think + |out.think|, content := t.content + |out.content|, toolCall := t.toolCall + |out.toolCall|)
  }

  function AddScores(t: Totals, m: RoundMetrics, n: nat): Totals
    requires n > 0
  {
    t.(seen := true, scores := AddMetrics(t.scores, Scale(m, n)))
  }

  /** A saved record: the id, the golden answer and the metrics of a round. */
  datatype Saved = Saved(dataId: Json, golden: Json, metrics: RoundMetrics)

  datatype Acc = Acc(totals: Totals, saved: seq<Saved>)

  /** `f"{data[0]['content']}_round_{j+1}"`. */
  function RoundId(s: Scored, j: nat): Json {
    JStr(Show(s.sampleId) + "_round_" + Text.NatToString(j + 1))
  }

  // ================================================================ one sample

  /** One step of the sample loop: the lengths always; the metrics and a saved record
      while `counts`. */
  function Step(acc: Acc, s: Scored, j: nat, n: nat, counts: bool): Acc
    requires n > 0
  {
    var t := AddLengths(acc.totals, s.out);
    if counts then Acc(AddScores(t, s.metrics, n), acc.saved + [Saved(RoundId(s, j), s.golden, s.metrics)])
    else Acc(t, acc.saved)
  }

  /** A round adds between 0 and `1/n` to each metric sum when it counts, nothing otherwise. */
  lemma StepWithin(acc: Acc, s: Scored, j: nat, n: nat, counts: bool)
    requires n > 0 && MetricsInUnit(s.metrics)
    ensures Within(Step(acc, s, j, n, counts).totals.scores, acc.totals.scores, if counts then 1.0 / n as real else 0.0)
  {
    ScaleWithin(s.metrics, n);
  }

  /** The rounds `j..` of a sample with `n` rounds; `tag` is true while every earlier round
      of the sample was an exact match, and is cleared after the first round that is not. */
  function SampleLoop(ss: seq<Scored>, j: nat, n: nat, avg: bool, tag: bool, acc: Acc): Acc
    requires j + |ss| == n
    decreases |ss|
  {
    if |ss| == 0 then acc
    else SampleLoop(ss[1..], j + 1, n, avg, tag && ss[0].metrics.allTools == 1.0, Step(acc, ss[0], j, n, avg || tag))
  }

  /** The rounds `j..` add at most `|ss|/n` to each metric sum, and nothing to an empty sample. */
  lemma {:induction false} SampleLoopWithin(ss: seq<Scored>, j: nat, n: nat, avg: bool, tag: bool, acc: Acc)
    requires j + |ss| == n
    requires forall i :: 0 <= i < |ss| ==> MetricsInUnit(ss[i].metrics)
    ensures n > 0 ==> Within(SampleLoop(ss, j, n, avg, tag, acc).totals.scores, acc.totals.scores, |ss| as real / n as real)
    ensures n == 0 ==> SampleLoop(ss, j, n, avg, tag, acc) == acc
    decreases |ss|
  {
    if |ss| > 0 {
      var next := Step(acc, ss[0], j, n, avg || tag);
      var tag' := tag && ss[0].metrics.allTools == 1.0;
      var r := SampleLoop(ss[1..], j + 1, n, avg, tag', next);
      SampleLoopStep(ss, j, n, avg, tag, acc);
      assert forall i :: 0 <= i < |ss[1..]| ==> ss[1..][i] == ss[i + 1];
      StepWithin(acc, ss[0], j, n, avg || tag);
      SampleLoopWithin(ss[1..], j + 1, n, avg, tag', next);
      WithinRound(acc.totals.scores, next.totals.scores, r.totals.scores, avg || tag, |ss| - 1, n);
    }
  }

  /** One more round widens the bound by at most `1/n`. */
  lemma WithinRound(x: RoundMetrics, y: RoundMetrics, z: RoundMetrics, counts: bool, k: nat, n: nat)
    requires n > 0
    requires Within(y, x, if counts then 1.0 / n as real else 0.0)
    requires Within(z, y, k as real / n as real)
    ensures Within(z, x, (k + 1) as real / n as real)
  {
    Fraction(k, n);
    WithinChain(x, y, z, if counts then 1.0 / n as real else 0.0, k as real / n as real);
  }

  lemma Fraction(a: nat, n: nat)
    requires n > 0
    ensures 1.0 / n as real + a as real / n as real == (a + 1) as real / n as real
    ensures 0.0 <= a as real / n as real
  {
  }

  /** The number of rounds the sample loop adds, by a direct reading: all of them in `avg`
      mode; otherwise none once the flag is down, else this round and, if it is an exact
      match, the count for the rest. */
  function Counted(ss: seq<Scored>, avg: bool, tag: bool): (c: nat)
    ensures c <= |ss|
  {
    if avg then |ss|
    else if !tag || |ss| == 0 then 0
    else 1 + Counted(ss[1..], false, ss[0].metrics.allTools == 1.0)
  }

  /** In sequential mode a round counts iff every earlier round of its sample was an exact
      match; the first round that is not still counts. */
  lemma {:induction false} CountedMeans(ss: seq<Scored>, k: nat)
    requires k < |ss|
    ensures k < Counted(ss, false, true) <==> forall l :: 0 <= l < k ==> ss[l].metrics.allTools == 1.0
  {
    if k > 0 {
      if ss[0].metrics.allTools == 1.0 {
        CountedMeans(ss[1..], k - 1);
        assert forall l :: 0 < l < |ss| ==> ss[l] == ss[1..][l - 1];
      }
    }
  }

  /** The metrics of the first `c` rounds, each divided by `n`. */
  function ScoreSum(ss: seq<Scored>, c: nat, n: nat): RoundMetrics
    requires c <= |ss| && n > 0
  {
    if c == 0 then NoMetrics else AddMetrics(Scale(ss[0].metrics, n), ScoreSum(ss[1..], c - 1, n))
  }

  /** The records saved for the first `c` rounds, numbered from `j + 1`. */
  function SaveList(ss: seq<Scored>, j: nat, c: nat): (r: seq<Saved>)
    requires c <= |ss|
    ensures |r| == c
  {
    if c == 0 then [] else [Saved(RoundId(ss[0], j), ss[0].golden, ss[0].metrics)] + SaveList(ss[1..], j + 1, c - 1)
  }

  /** Record `i` is round `i` of the list, numbered `j + i + 1`. */
  lemma {:induction false} SaveListAt(ss: seq<Scored>, j: nat, c: nat, i: nat)
    requires c <= |ss| && i < c
    ensures SaveList(ss, j, c)[i] == Saved(RoundId(ss[i], j + i), ss[i].golden, ss[i].metrics)
  {
    if i > 0 {
      SaveListAt(ss[1..], j + 1, c - 1, i - 1);
      assert ss[1..][i - 1] == ss[i];
    }
  }

  datatype Lengths = Lengths(think: nat, content: nat, toolCall: nat)

  function LengthsOf(ss: seq<Scored>): Lengths {
    if |ss| == 0 then Lengths(0, 0, 0)
    else
      var rest := LengthsOf(ss[1..]);
      Lengths(|ss[0].out.think| + rest.think, |ss[0].out.content| + rest.content, |ss[0].out.toolCall| + rest.toolCall)
  }

  /** The sample loop adds the metrics of exactly the first `Counted` rounds. */
  lemma {:induction false} SampleLoopScores(ss: seq<Scored>, j: nat, n: nat, avg: bool, tag: bool, acc: Acc)
    requires j + |ss| == n && n > 0
    ensures SampleLoop(ss, j, n, avg, tag, acc).totals.scores
            == AddMetrics(acc.totals.scores, ScoreSum(ss, Counted(ss, avg, tag), n))
    decreases |ss|
  {
    if |ss| > 0 {
      var s := ss[0];
      var next := Step(acc, s, j, n, avg || tag);
      SampleLoopScores(ss[1..], j + 1, n, avg, tag && s.metrics.allTools == 1.0, next);
    }
  }

  /** The sample loop saves a record for exactly the first `Counted` rounds, in order. */
  lemma {:induction false} SampleLoopSaved(ss: seq<Scored>, j: nat, n: nat, avg: bool, tag: bool, acc: Acc)
    requires j + |ss| == n && n > 0
    ensures SampleLoop(ss, j, n, avg, tag, acc).saved == acc.saved + SaveList(ss, j, Counted(ss, avg, tag))
    decreases |ss|
  {
    if |ss| > 0 {
      var s := ss[0];
      var counts := avg || tag;
      var next := Step(acc, s, j, n, counts);
      var tag' := tag && s.metrics.allTools == 1.0;
      SampleLoopStep(ss, j, n, avg, tag, acc);
      SampleLoopSaved(ss[1..], j + 1, n, avg, tag', next);
      SaveListStep(ss, j, avg, tag);
      var here: seq<Saved> := if counts then [Saved(RoundId(s, j), s.golden, s.metrics)] else [];
      var rest := SaveList(ss[1..], j + 1, Counted(ss[1..], avg, tag'));
      assert (acc.saved + here) + rest == acc.saved + (here + rest);
    }
  }

  /** The saved records, one round at a time. */
  lemma SaveListStep(ss: seq<Scored>, j: nat, avg: bool, tag: bool)
    requires |ss| > 0
    ensures SaveList(ss, j, Counted(ss, avg, tag))
      == (if avg || tag then [Saved(RoundId(ss[0], j), ss[0].golden, ss[0].metrics)] else [])
         + SaveList(ss[1..], j + 1, Counted(ss[1..], avg, tag && ss[0].metrics.allTools == 1.0))
  {
    CountedStep(ss, avg, tag);
  }

  /** The count of saved rounds, one round at a time. */
  lemma CountedStep(ss: seq<Scored>, avg: bool, tag: bool)
    requires |ss| > 0
    ensures Counted(ss, avg, tag) == (if avg || tag then 1 else 0) + Counted(ss[1..], avg, tag && ss[0].metrics.allTools == 1.0)
  {
    if !avg && !tag {
      assert Counted(ss[1..], false, false) == 0;
    }
  }

  /** One iteration of the sample loop: the first round is stepped, the rest loops on. */
  lemma SampleLoopStep(ss: seq<Scored>, j: nat, n: nat, avg: bool, tag: bool, acc: Acc)
    requires j + |ss| == n && |ss| > 0
    ensures SampleLoop(ss, j, n, avg, tag, acc)
      == SampleLoop(ss[1..], j + 1, n, avg, tag && ss[0].metrics.allTools == 1.0, Step(acc, ss[0], j, n, avg || tag))
    ensures Step(acc, ss[0], j, n, avg || tag).saved
      == acc.saved + (if avg || tag then [Saved(RoundId(ss[0], j), ss[0].golden, ss[0].metrics)] else [])
  {
  }

  /** The metric keys exist after the sample loop iff they did before or some round counted. */
  lemma {:induction false} SampleLoopSeen(ss: seq<Scored>, j: nat, n: nat, avg: bool, tag: bool, acc: Acc)
    requires j + |ss| == n && n > 0
    ensures SampleLoop(ss, j, n, avg, tag, acc).totals.seen == (acc.totals.seen || Counted(ss, avg, tag) > 0)
    decreases |ss|
  {
    if |ss| > 0 {
      var s := ss[0];
      var next := Step(acc, s, j, n, avg || tag);
      SampleLoopSeen(ss[1..], j + 1, n, avg, tag && s.metrics.allTools == 1.0, next);
    }
  }

  /** The sample loop adds the answer lengths of every round, counted or not. */
  lemma {:induction false} SampleLoopLengths(ss: seq<Scored>, j: nat, n: nat, avg: bool, tag: bool, acc: Acc)
    requires j + |ss| == n && n > 0
    ensures var r := SampleLoop(ss, j, n, avg, tag, acc);
      && r.totals.think == acc.totals.think + LengthsOf(ss).think
      && r.totals.content == acc.totals.content + LengthsOf(ss).content
      && r.totals.toolCall == acc.totals.toolCall + LengthsOf(ss).toolCall
    decreases |ss|
  {
    if |ss| > 0 {
      var s := ss[0];
      var next := Step(acc, s, j, n, avg || tag);
      SampleLoopLengths(ss[1..], j + 1, n, avg, tag && s.metrics.allTools == 1.0, next);
    }
  }

  /** Sequential mode never sums more than `avg` mode. */
  lemma {:induction false} SequentialAtMostAvgSample(ss: seq<Scored>, j: nat, n: nat, tag: bool, a1: Acc, a2: Acc)
    requires j + |ss| == n
    requires forall i :: 0 <= i < |ss| ==> MetricsInUnit(ss[i].metrics)
    requires Below(a1.totals, a2.totals)
    ensures Below(SampleLoop(ss, j, n, false, tag, a1).totals, SampleLoop(ss, j, n, true, tag, a2).totals)
    decreases |ss|
  {
    if |ss| > 0 {
      var s := ss[0];
      ScaleWithin(s.metrics, n);
      SequentialAtMostAvgSample(ss[1..], j + 1, n, tag && s.metrics.allTools == 1.0,
                                Step(a1, s, j, n, tag), Step(a2, s, j, n, true));
    }
  }

  // ================================================================ the dataset

  /** The loop over the samples: sample `i` owns the next `counts[i]` scored rounds and
      starts with the flag up. Each sample adds at most 1 to every metric sum. */
  function Aggregate(counts: seq<nat>, ss: seq<Scored>, avg: bool, acc: Acc): (r: Acc)
    requires |ss| == Sum(counts)
    requires forall i :: 0 <= i < |ss| ==> MetricsInUnit(ss[i].metrics)
    ensures Within(r.totals.scores, acc.totals.scores, |counts| as real)
  {
    if |counts| == 0 then acc
    else
      var n := counts[0];
      assert n <= |ss| && |ss[n..]| == Sum(counts[1..]);
      var here := SampleLoop(ss[..n], 0, n, avg, true, acc);
      SampleLoopWithin(ss[..n], 0, n, avg, true, acc);
      var r := Aggregate(counts[1..], ss[n..], avg, here);
      WholeUnit(n);
      WithinChain(acc.totals.scores, here.totals.scores, r.totals.scores, 1.0, (|counts| - 1) as real);
      r
  }

  lemma WholeUnit(n: nat)
    ensures n > 0 ==> n as real / n as real == 1.0
  {
  }

  lemma {:induction false} SequentialAtMostAvg(counts: seq<nat>, ss: seq<Scored>, a1: Acc, a2: Acc)
    requires |ss| == Sum(counts)
    requires forall i :: 0 <= i < |ss| ==> MetricsInUnit(ss[i].metrics)
    requires Below(a1.totals, a2.totals)
    ensures Below(Aggregate(counts, ss, false, a1).totals, Aggregate(counts, ss, true, a2).totals)
  {
    if |counts| > 0 {
      var n := counts[0];
      SequentialAtMostAvgSample(ss[..n], 0, n, true, a1, a2);
      SequentialAtMostAvg(counts[1..], ss[n..], SampleLoop(ss[..n], 0, n, false, true, a1),
                          SampleLoop(ss[..n], 0, n, true, true, a2));
    }
  }

  // ================================================================ normalisation

  datatype MetricKey = AllToolsKey | PerToolKey | ToolAccKey | ParamAccKey

  function KeyName(k: MetricKey): string {
    match k
    case AllToolsKey => "ExactMatch-AllTools"
    case PerToolKey => "ExactMatch-PerTool"
    case ToolAccKey => "ToolAccuracy"
    case ParamAccKey => "ParameterAccuracy"
  }

  function Value(m: RoundMetrics, k: MetricKey): real {
    match k
    case AllToolsKey => m.allTools
    case PerToolKey => m.perTool
    case ToolAccKey => m.toolAcc
    case ParamAccKey => m.paramAcc
  }

  /** A result key is reported when its part before the first `-` is a requested metric,
      or when it is an `avg_` key. */
  predicate Kept(key: string, metrics: seq<string>) {
    Text.Split(key, '-')[0] in metrics || Text.StartsWith(key, "avg_")
  }

  /** The metric family a key is filtered by: its part before the first `-`. */
  function Family(k: MetricKey): string {
    match k
    case AllToolsKey => "ExactMatch"
    case PerToolKey => "ExactMatch"
    case ToolAccKey => "ToolAccuracy"
    case ParamAccKey => "ParameterAccuracy"
  }

  lemma KeptFamily(k: MetricKey, metrics: seq<string>)
    ensures Kept(KeyName(k), metrics) <==> Family(k) in metrics
  {
    match k
    case AllToolsKey => KeptDashed(KeyName(k), metrics);
    case PerToolKey => KeptDashed(KeyName(k), metrics);
    case ToolAccKey => KeptPlain(KeyName(k), metrics);
    case ParamAccKey => KeptPlain(KeyName(k), metrics);
  }

  /** A key `ExactMatch-…` is kept iff `ExactMatch` is asked for. */
  lemma KeptDashed(name: string, metrics: seq<string>)
    requires |name| > 10 && name[..10] == "ExactMatch" && name[10] == '-'
    ensures Kept(name, metrics) <==> "ExactMatch" in metrics
  {
    assert '-' !in name[..10];
    Text.SplitHead(name, '-', 10);
    assert name[..4][0] != 'a';
  }

  /** A key without `-` that does not start with `a` is kept iff it is asked for. */
  lemma KeptPlain(name: string, metrics: seq<string>)
    requires '-' !in name && |name| > 0 && name[0] != 'a'
    ensures Kept(name, metrics) <==> name in metrics
  {
    assert |name| >= 4 ==> name[..4][0] != 'a';
  }

  const AllKeys: set<MetricKey> := {AllToolsKey, PerToolKey, ToolAccKey, ParamAccKey}

  /** The result dictionary of a dataset: the three `avg_` keys, the kept metric keys and
      `Size`. */
  datatype Scores = Scores(avgThink: real, avgContent: real, avgToolCall: real, accuracy: map<MetricKey, real>, size: nat)

  predicate AnyKept(metrics: seq<string>) {
    exists k :: k in AllKeys && Kept(KeyName(k), metrics)
  }

  /** The length sums divided by the number of rounds, the kept accuracy sums times 100
      divided by the number of samples; a zero divisor raises `ZeroDivisionError`. */
  function Normalise(t: Totals, rounds: nat, samples: nat, metrics: seq<string>): (r: Result<Scores>)
    ensures r.Err? <==> rounds == 0 || (samples == 0 && t.seen && AnyKept(metrics))
    ensures r.Ok? ==> r.value.size == samples
  {
    if rounds == 0 || (samples == 0 && t.seen && AnyKept(metrics)) then Err(ZeroDivisionError)
    else
      Ok(Scores(t.think as real / rounds as real, t.content as real / rounds as real, t.toolCall as real / rounds as real,
                Accuracy(t, samples, metrics), samples))
  }

  lemma EveryKey(k: MetricKey)
    ensures k in AllKeys
  {
    match k
    case AllToolsKey =>
    case PerToolKey =>
    case ToolAccKey =>
    case ParamAccKey =>
  }

  /** A metric is reported iff some round added metrics and its family was requested. */
  lemma NormaliseKeys(t: Totals, rounds: nat, samples: nat, metrics: seq<string>, k: MetricKey)
    requires Normalise(t, rounds, samples, metrics).Ok?
    ensures k in Normalise(t, rounds, samples, metrics).value.accuracy <==> t.seen && Family(k) in metrics
  {
    EveryKey(k);
    KeptFamily(k, metrics);
  }

  /** The kept metric sums, in percent, divided by the number of samples. */
  function Accuracy(t: Totals, samples: nat, metrics: seq<string>): map<MetricKey, real>
    requires samples > 0 || !(t.seen && AnyKept(metrics))
  {
    map k | k in AllKeys && t.seen && Kept(KeyName(k), metrics) :: Percent(Value(t.scores, k), samples)
  }

  /** `v * 100 / n`. */
  function Percent(v: real, n: nat): real
    requires n > 0
  {
    v * 100.0 / n as real
  }

  lemma AccuracyValue(t: Totals, samples: nat, metrics: seq<string>, k: MetricKey)
    requires samples > 0 || !(t.seen && AnyKept(metrics))
    requires k in Accuracy(t, samples, metrics)
    ensures samples > 0
    ensures Accuracy(t, samples, metrics)[k] == Percent(Value(t.scores, k), samples)
  {
  }

  /** `x / d` times `d` is `x`. */
  lemma DivMul(x: real, d: nat)
    requires d > 0
    ensures (x / d as real) * d as real == x
  {
  }

  /** The averages are the length sums shared out over the rounds. */
  lemma NormaliseMeans(t: Totals, rounds: nat, samples: nat, metrics: seq<string>)
    requires Normalise(t, rounds, samples, metrics).Ok?
    ensures var r := Normalise(t, rounds, samples, metrics).value;
      && r.avgThink * rounds as real == t.think as real
      && r.avgContent * rounds as real == t.content as real
      && r.avgToolCall * rounds as real == t.toolCall as real
  {
    DivMul(t.think as real, rounds);
    DivMul(t.content as real, rounds);
    DivMul(t.toolCall as real, rounds);
  }

  /** A reported metric is its sum, in percent, shared out over the samples. */
  lemma NormaliseValue(t: Totals, rounds: nat, samples: nat, metrics: seq<string>, k: MetricKey)
    requires Normalise(t, rounds, samples, metrics).Ok?
    requires k in Normalise(t, rounds, samples, metrics).value.accuracy
    ensures samples > 0
    ensures Normalise(t, rounds, samples, metrics).value.accuracy[k] == Percent(Value(t.scores, k), samples)
  {
    AccuracyValue(t, samples, metrics, k);
  }

  /** Kept accuracy values are percentages when every metric sum is at most the number of
      samples. */
  lemma Percentages(t: Totals, rounds: nat, samples: nat, metrics: seq<string>)
    requires Normalise(t, rounds, samples, metrics).Ok?
    requires Within(t.scores, NoMetrics, samples as real)
    ensures forall k :: k in Normalise(t, rounds, samples, metrics).value.accuracy ==>
              0.0 <= Normalise(t, rounds, samples, metrics).value.accuracy[k] <= 100.0
  {
    var r := Normalise(t, rounds, samples, metrics).value;
    forall k | k in r.accuracy
      ensures 0.0 <= r.accuracy[k] <= 100.0
    {
      NormaliseValue(t, rounds, samples, metrics, k);
      ValueWithin(t.scores, samples as real, k);
      PercentOf(Value(t.scores, k), samples);
    }
  }

  /** Larger sums give larger percentages, key by key, and every key kept for the smaller
      sums is kept for the larger ones. */
  lemma NormaliseMonotone(t1: Totals, t2: Totals, rounds: nat, samples: nat, metrics: seq<string>)
    requires Below(t1, t2)
    requires Normalise(t1, rounds, samples, metrics).Ok? && Normalise(t2, rounds, samples, metrics).Ok?
    ensures forall k :: k in Normalise(t1, rounds, samples, metrics).value.accuracy ==>
              k in Normalise(t2, rounds, samples, metrics).value.accuracy
              && Normalise(t1, rounds, samples, metrics).value.accuracy[k]
                 <= Normalise(t2, rounds, samples, metrics).value.accuracy[k]
  {
    var r1 := Normalise(t1, rounds, samples, metrics).value;
    var r2 := Normalise(t2, rounds, samples, metrics).value;
    forall k | k in r1.accuracy
      ensures k in r2.accuracy && r1.accuracy[k] <= r2.accuracy[k]
    {
      NormaliseKeys(t1, rounds, samples, metrics, k);
      NormaliseKeys(t2, rounds, samples, metrics, k);
      NormaliseValue(t1, rounds, samples, metrics, k);
      NormaliseValue(t2, rounds, samples, metrics, k);
      ScaledLe(Value(t1.scores, k), Value(t2.scores, k), samples);
    }
  }

  lemma ScaledLe(v1: real, v2: real, d: nat)
    requires v1 <= v2 && d > 0
    ensures Percent(v1, d) <= Percent(v2, d)
  {
    assert v1 * 100.0 <= v2 * 100.0;
  }

  lemma ValueWithin(m: RoundMetrics, w: real, k: MetricKey)
    requires Within(m, NoMetrics, w)
    ensures 0.0 <= Value(m, k) <= w
  {
  }

  lemma PercentOf(v: real, d: nat)
    requires 0.0 <= v <= d as real && d > 0
    ensures 0.0 <= Percent(v, d) <= 100.0
  {
    assert v * 100.0 <= d as real * 100.0;
  }

  // ================================================================ the jsonl lines

  /** One line of the jsonl save file: the record's id and metrics. */
  datatype Line = Line(dataId: Json, metrics: RoundMetrics)

  /** Each record with its own metrics. */
  function JsonlLines(saved: seq<Saved>): (r: seq<Line>)
    ensures |r| == |saved| && forall i :: 0 <= i < |saved| ==> r[i] == Line(saved[i].dataId, saved[i].metrics)
  {
    seq(|saved|, i requires 0 <= i < |saved| => Line(saved[i].dataId, saved[i].metrics))
  }

  /** The lines as the repository writes them: the metrics of every line are those of the
      last round scored, because the mapping reads the loop's variable when it runs. */
  function JsonlLinesAsWritten(saved: seq<Saved>, lastScored: RoundMetrics): (r: seq<Line>)
    ensures |r| == |saved| && forall i :: 0 <= i < |saved| ==> r[i] == Line(saved[i].dataId, lastScored)
  {
    seq(|saved|, i requires 0 <= i < |saved| => Line(saved[i].dataId, lastScored))
  }

  /** Two saved records with different metrics: as written, the first line carries the
      second record's metrics. */
  lemma JsonlLinesAsWrittenMislabels()
    ensures var saved := [Saved(JStr("a"), JNull, RoundMetrics(1.0, 1.0, 1.0, 1.0)), Saved(JStr("b"), JNull, NoMetrics)];
      && JsonlLinesAsWritten(saved, saved[1].metrics)[0] != Line(saved[0].dataId, saved[0].metrics)
      && JsonlLines(saved)[0] == Line(saved[0].dataId, saved[0].metrics)
  {
  }

  // ================================================================ multi-round evaluation

  datatype Report = Report(scores: Scores, saved: seq<Saved>, lines: seq<Line>)

  /** The aggregation and normalisation of the scored rounds. */
  function Finish(counts: seq<nat>, ss: seq<Scored>, avg: bool, samples: nat, metrics: seq<string>): (r: Result<Report>)
    requires |ss| == Sum(counts) && |counts| == samples
    requires forall i :: 0 <= i < |ss| ==> MetricsInUnit(ss[i].metrics)
    ensures r.Ok? ==> r.value.scores.size == samples
    ensures r.Ok? ==> forall k :: k in r.value.scores.accuracy ==> 0.0 <= r.value.scores.accuracy[k] <= 100.0
    ensures r.Ok? ==> r.value.lines == JsonlLines(r.value.saved)
  {
    var acc := Aggregate(counts, ss, avg, Acc(NoTotals, []));
    var scores :- Normalise(acc.totals, |ss|, samples, metrics);
    Percentages(acc.totals, |ss|, samples, metrics);
    Ok(Report(scores, acc.saved, JsonlLines(acc.saved)))
  }

  /** One dataset of the multi-round evaluation; `None` when the dataset is empty and is
      skipped. Any mode other than `"avg"` is sequential. */
  function MultiRound(dataset: seq<Sample>, model: Model, strict: bool, mode: string, metrics: seq<string>)
    : (r: Result<Option<Report>>)
    ensures |dataset| == 0 <==> r == Ok(None)
    ensures r.Ok? && r.value.Some? ==>
              Prepare(dataset).Ok? && 0 < |Prepare(dataset).value.rounds| <= |Prepare(dataset).value.prompts|
    ensures r.Ok? && r.value.Some? ==> r.value.value.scores.size == |dataset|
    ensures r.Ok? && r.value.Some? ==> forall k :: k in r.value.value.scores.accuracy ==>
              0.0 <= r.value.value.scores.accuracy[k] <= 100.0
    ensures r.Ok? && r.value.Some? ==> r.value.value.lines == JsonlLines(r.value.value.saved)
  {
    if |dataset| == 0 then Ok(None)
    else
      var p :- Prepare(dataset);
      var ss :- ScoreFrom(p.rounds, p.prompts, model, ScorerOf(strict), 0);
      ScoredInUnit(p.rounds, p.prompts, model, strict);
      var rep :- Finish(p.counts, ss, mode == "avg", |dataset|, metrics);
      Ok(Some(rep))
  }

  /** A round without candidate tools gets no prompt, which shifts the prompt list against
      the rounds and always ends in an error. */
  lemma MissingPromptFails(dataset: seq<Sample>, model: Model, strict: bool, mode: string, metrics: seq<string>)
    requires Prepare(dataset).Ok? && |Prepare(dataset).value.prompts| < |Prepare(dataset).value.rounds|
    ensures MultiRound(dataset, model, strict, mode, metrics).Err?
  {
  }

  lemma FinishSequentialAtMostAvg(counts: seq<nat>, ss: seq<Scored>, samples: nat, metrics: seq<string>)
    requires |ss| == Sum(counts) && |counts| == samples
    requires forall i :: 0 <= i < |ss| ==> MetricsInUnit(ss[i].metrics)
    requires Finish(counts, ss, false, samples, metrics).Ok? && Finish(counts, ss, true, samples, metrics).Ok?
    ensures forall k :: k in Finish(counts, ss, false, samples, metrics).value.scores.accuracy ==>
              k in Finish(counts, ss, true, samples, metrics).value.scores.accuracy
              && Finish(counts, ss, false, samples, metrics).value.scores.accuracy[k]
                 <= Finish(counts, ss, true, samples, metrics).value.scores.accuracy[k]
  {
    var a1 := Aggregate(counts, ss, false, Acc(NoTotals, []));
    var a2 := Aggregate(counts, ss, true, Acc(NoTotals, []));
    SequentialAtMostAvg(counts, ss, Acc(NoTotals, []), Acc(NoTotals, []));
    NormaliseMonotone(a1.totals, a2.totals, |ss|, samples, metrics);
  }

  /** The sequential reading never reports more than the `avg` reading, metric by metric. */
  lemma SequentialReportsAtMostAvg(dataset: seq<Sample>, model: Model, strict: bool, mode: string, metrics: seq<string>)
    requires mode != "avg" && |dataset| > 0
    requires MultiRound(dataset, model, strict, mode, metrics).Ok? && MultiRound(dataset, model, strict, "avg", metrics).Ok?
    ensures forall k :: k in MultiRound(dataset, model, strict, mode, metrics).value.value.scores.accuracy ==>
              k in MultiRound(dataset, model, strict, "avg", metrics).value.value.scores.accuracy
              && MultiRound(dataset, model, strict, mode, metrics).value.value.scores.accuracy[k]
                 <= MultiRound(dataset, model, strict, "avg", metrics).value.value.scores.accuracy[k]
  {
    var p := Prepare(dataset).value;
    var ss := ScoreFrom(p.rounds, p.prompts, model, ScorerOf(strict), 0).value;
    ScoredInUnit(p.rounds, p.prompts, model, strict);
    assert MultiRound(dataset, model, strict, mode, metrics) == Ok(Some(Finish(p.counts, ss, false, |dataset|, metrics).value));
    assert MultiRound(dataset, model, strict, "avg", metrics) == Ok(Some(Finish(p.counts, ss, true, |dataset|, metrics).value));
    FinishSequentialAtMostAvg(p.counts, ss, |dataset|, metrics);
  }
}

/** The single-round evaluation: every sample is one prompt (its messages but the last)
    and one golden answer (its last message). Samples are paired with the prompts by
    position, and the pairing stops at the shorter list.

    The result of a sample whose last message is not a tool call is the result of the
    previous scored sample: the variable holding it is not reset, not even between
    datasets, and reading it before any sample was scored raises `NameError`. */
module SingleRound {
  import opened Wrappers
  import opened JsonValues
  import opened Scoring
  import opened Messages
  import opened Rounds
  import opened Evaluate

  /** `data[:-1]`, which is empty for an empty sample. */
  function Init(data: Sample): (r: Sample)
    ensures |data| > 0 ==> r == data[..|data| - 1]
    ensures |data| == 0 ==> r == []
  {
    if |data| == 0 then [] else data[..|data| - 1]
  }

  /** Whether the sample gets a prompt: its messages before the last name candidate tools. */
  predicate HasTools(data: Sample) {
    exists i :: 0 <= i < |Init(data)| && Init(data)[i].role == "candidate_tools"
  }

  // ================================================================ prompts

  /** How a sample's prompt is built. */
  type Prompter = Sample -> Result<Option<Prompt>>

  /** The prompt of a sample is built from its messages but the last. */
  const SamplePrompt: Prompter := data => PromptFor(Init(data))

  /** A sample gets a prompt iff its messages before the last name candidate tools. */
  lemma SamplePromptNeedsTools(data: Sample)
    requires SamplePrompt(data).Ok?
    ensures SamplePrompt(data).value.Some? <==> HasTools(data)
  {
    assert SamplePrompt(data) == PromptFor(Init(data));
  }

  /** The prompts of the samples, in order; a sample without a prompt is skipped. */
  function SinglePrompts(dataset: seq<Sample>, prompt: Prompter): (r: Result<seq<Prompt>>)
    ensures r.Ok? ==> |r.value| <= |dataset|
  {
    if |dataset| == 0 then Ok([])
    else
      var p := prompt(dataset[0]);
      var rest := SinglePrompts(dataset[1..], prompt);
      if p.Err? then Err(p.error)
      else if rest.Err? then Err(rest.error)
      else Ok((if p.value.Some? then [p.value.value] else []) + rest.value)
  }

  /** The prompts fail iff some sample's prompt fails. */
  lemma {:induction false} SinglePromptsFail(dataset: seq<Sample>, prompt: Prompter)
    ensures SinglePrompts(dataset, prompt).Err? <==> exists i :: 0 <= i < |dataset| && prompt(dataset[i]).Err?
  {
    if |dataset| > 0 {
      SinglePromptsFail(dataset[1..], prompt);
      assert forall i :: 0 < i < |dataset| ==> dataset[i] == dataset[1..][i - 1];
    }
  }

  /** When every sample gets a prompt, prompt `i` belongs to sample `i`. */
  lemma {:induction false} SinglePromptsAligned(dataset: seq<Sample>, prompt: Prompter)
    requires SinglePrompts(dataset, prompt).Ok?
    requires forall i :: 0 <= i < |dataset| ==> prompt(dataset[i]).Ok? && prompt(dataset[i]).value.Some?
    ensures |SinglePrompts(dataset, prompt).value| == |dataset|
    ensures forall i :: 0 <= i < |dataset| ==> SinglePrompts(dataset, prompt).value[i] == prompt(dataset[i]).value.value
  {
    if |dataset| > 0 {
      var rest := SinglePrompts(dataset[1..], prompt);
      var r := SinglePrompts(dataset, prompt).value;
      assert forall i :: 0 < i < |dataset| ==> dataset[i] == dataset[1..][i - 1];
      SinglePromptsAligned(dataset[1..], prompt);
      assert r == [prompt(dataset[0]).value.value] + rest.value;
      forall i | 0 < i < |dataset|
        ensures r[i] == prompt(dataset[i]).value.value
      {
        assert r[i] == rest.value[i - 1];
      }
    }
  }

  /** A sample without a prompt leaves fewer prompts than samples. */
  lemma {:induction false} SinglePromptsShort(dataset: seq<Sample>, prompt: Prompter, i: nat)
    requires SinglePrompts(dataset, prompt).Ok?
    requires i < |dataset| && prompt(dataset[i]) == Ok(None)
    ensures |SinglePrompts(dataset, prompt).value| < |dataset|
  {
    if i > 0 {
      assert dataset[1..][i - 1] == dataset[i];
      SinglePromptsShort(dataset[1..], prompt, i - 1);
    }
  }

  // ================================================================ the loop

  /** The golden answer and metrics of the sample last scored. */
  datatype Last = Last(golden: Json, metrics: RoundMetrics)

  /** Every metric the scorer returns lies in [0, 1]. */
  ghost predicate UnitScorer(score: Scorer) {
    forall d, o :: score(d, o).Ok? ==> MetricsInUnit(score(d, o).value)
  }

  lemma ScorerOfUnit(strict: bool)
    ensures UnitScorer(ScorerOf(strict))
  {
    forall d, o | ScorerOf(strict)(d, o).Ok?
      ensures MetricsInUnit(ScorerOf(strict)(d, o).value)
    {
      assert ScorerOf(strict)(d, o) == ScoreRound(d, o, strict);
    }
  }

  /** Whether the sample's last message is a tool call, which makes it scored afresh. */
  predicate IsCall(data: Sample) {
    |data| > 0 && IsToolCallRole(data[|data| - 1].role)
  }

  /** `test_result` and `golden_answer` after one sample: a tool-call sample is scored; any
      other sample keeps the previous values, which do not exist before the first score. */
  function SampleResult(data: Sample, out: Parsed, score: Scorer, last: Option<Last>): (r: Result<Last>)
    ensures |data| == 0 ==> r == Err(IndexError)
    ensures IsCall(data) ==> (r.Ok? <==> score(data, out).Ok?)
    ensures IsCall(data) && r.Ok? ==> r.value == Last(data[|data| - 1].content, score(data, out).value)
    ensures |data| > 0 && !IsCall(data) ==> r == (if last.Some? then Ok(last.value) else Err(NameError))
  {
    if |data| == 0 then Err(IndexError)
    else if IsToolCallRole(data[|data| - 1].role) then
      var m :- score(data, out);
      Ok(Last(data[|data| - 1].content, m))
    else if last.Some? then Ok(last.value)
    else Err(NameError)
  }

  datatype State = State(acc: Acc, last: Option<Last>)

  /** One sample: its lengths, its metrics (undivided) and one saved record. */
  function SingleStep(acc: Acc, data: Sample, out: Parsed, l: Last): (r: Acc)
    requires |data| > 0
    ensures r.totals.seen
    ensures r.saved == acc.saved + [Saved(data[0].content, l.golden, l.metrics)]
  {
    Acc(AddScores(AddLengths(acc.totals, out), l.metrics, 1), acc.saved + [Saved(data[0].content, l.golden, l.metrics)])
  }

  /** The number of (sample, prompt) pairs `zip` produces. */
  function Pairs(dataset: seq<Sample>, prompts: seq<Prompt>): nat {
    Min(|dataset|, |prompts|)
  }

  /** The loop over `zip(dataset, prompt_list, output_list)` from pair `k`. */
  function SingleLoop(dataset: seq<Sample>, prompts: seq<Prompt>, model: Model, score: Scorer, k: nat, st: State)
    : (r: Result<State>)
    requires k <= Pairs(dataset, prompts)
    ensures r.Ok? ==> |r.value.acc.saved| == |st.acc.saved| + Pairs(dataset, prompts) - k
    ensures r.Ok? ==> r.value.acc.saved[..|st.acc.saved|] == st.acc.saved
    ensures r.Ok? ==> (r.value.acc.totals.seen <==> st.acc.totals.seen || k < Pairs(dataset, prompts))
    decreases Pairs(dataset, prompts) - k
  {
    if k == Pairs(dataset, prompts) then Ok(st)
    else
      var data := dataset[k];
      var out := model(prompts[k]);
      var res := SampleResult(data, out, score, st.last);
      if res.Err? then Err(res.error)
      else
        var next := SingleStep(st.acc, data, out, res.value);
        var r := SingleLoop(dataset, prompts, model, score, k + 1, State(next, Some(res.value)));
        if r.Ok? then
          assert r.value.acc.saved[..|st.acc.saved|] == next.saved[..|st.acc.saved|];
          r
        else r
  }

  /** With a scorer whose metrics lie in [0, 1], each pair adds at most 1 to every metric sum. */
  lemma {:induction false} SingleLoopBounded(dataset: seq<Sample>, prompts: seq<Prompt>, model: Model, score: Scorer,
                                             k: nat, st: State)
    requires k <= Pairs(dataset, prompts)
    requires UnitScorer(score) && (st.last.Some? ==> MetricsInUnit(st.last.value.metrics))
    requires SingleLoop(dataset, prompts, model, score, k, st).Ok?
    ensures var r := SingleLoop(dataset, prompts, model, score, k, st).value;
      && Within(r.acc.totals.scores, st.acc.totals.scores, (Pairs(dataset, prompts) - k) as real)
      && (r.last.Some? ==> MetricsInUnit(r.last.value.metrics))
    decreases Pairs(dataset, prompts) - k
  {
    if k < Pairs(dataset, prompts) {
      var data := dataset[k];
      var out := model(prompts[k]);
      var res := SampleResult(data, out, score, st.last);
      var next := SingleStep(st.acc, data, out, res.value);
      var st' := State(next, Some(res.value));
      SingleLoopBounded(dataset, prompts, model, score, k + 1, st');
      var r := SingleLoop(dataset, prompts, model, score, k + 1, st').value;
      ScaleWithin(res.value.metrics, 1);
      WithinChain(st.acc.totals.scores, next.totals.scores, r.acc.totals.scores,
                  1.0, (Pairs(dataset, prompts) - k - 1) as real);
    }
  }

  /** The position of the nearest tool-call sample in `k..i`, searching back from `i`. */
  function NearestCall(dataset: seq<Sample>, k: nat, i: nat): (r: Option<nat>)
    requires k <= i < |dataset|
    ensures r.Some? ==> k <= r.value <= i && IsCall(dataset[r.value])
                        && forall j :: r.value < j <= i ==> !IsCall(dataset[j])
    ensures r.None? ==> forall j :: k <= j <= i ==> !IsCall(dataset[j])
    decreases i
  {
    if IsCall(dataset[i]) then Some(i)
    else if i == k then None
    else NearestCall(dataset, k, i - 1)
  }

  /** Searching from `k` finds what searching from `k + 1` finds, or else sample `k`. */
  lemma NearestCallFrom(dataset: seq<Sample>, k: nat, i: nat)
    requires k < i < |dataset|
    ensures NearestCall(dataset, k, i) ==
              if NearestCall(dataset, k + 1, i).Some? then NearestCall(dataset, k + 1, i)
              else NearestCall(dataset, k, k)
  {
    var a := NearestCall(dataset, k, i);
    var b := NearestCall(dataset, k + 1, i);
    if b.Some? {
      assert a.Some? && a.value == b.value by {
        if a.None? || a.value < b.value || b.value < a.value {
          assert false;
        }
      }
    } else if IsCall(dataset[k]) {
      assert a == Some(k) by {
        if a.None? || a.value != k {
          assert false;
        }
      }
    }
  }

  /** Record `i` of the loop carries sample `i`'s id and the result of the nearest tool-call
      sample at or before it, or the result carried in when there is none. */
  lemma {:induction false} SingleLoopAt(dataset: seq<Sample>, prompts: seq<Prompt>, model: Model, score: Scorer,
                                        k: nat, st: State, i: nat)
    requires k <= i < Pairs(dataset, prompts)
    requires SingleLoop(dataset, prompts, model, score, k, st).Ok?
    ensures var saved := SingleLoop(dataset, prompts, model, score, k, st).value.acc.saved;
      var at := |st.acc.saved| + i - k;
      && |dataset[i]| > 0
      && saved[at].dataId == dataset[i][0].content
      && match NearestCall(dataset, k, i)
         case Some(j) =>
           && score(dataset[j], model(prompts[j])).Ok?
           && saved[at].golden == dataset[j][|dataset[j]| - 1].content
           && saved[at].metrics == score(dataset[j], model(prompts[j])).value
         case None =>
           && st.last.Some?
           && saved[at].golden == st.last.value.golden
           && saved[at].metrics == st.last.value.metrics
    decreases i - k
  {
    var data := dataset[k];
    var out := model(prompts[k]);
    var res := SampleResult(data, out, score, st.last);
    var next := SingleStep(st.acc, data, out, res.value);
    var st' := State(next, Some(res.value));
    var r := SingleLoop(dataset, prompts, model, score, k + 1, st');
    assert SingleLoop(dataset, prompts, model, score, k, st) == r;
    var saved := r.value.acc.saved;
    if i == k {
      assert saved[..|next.saved|][|st.acc.saved|] == saved[|st.acc.saved|];
    } else {
      SingleLoopAt(dataset, prompts, model, score, k + 1, st', i);
      NearestCallFrom(dataset, k, i);
    }
  }

  /** A first sample that is not a tool call has no result to reuse: `NameError`. */
  lemma FirstStaleFails(dataset: seq<Sample>, prompts: seq<Prompt>, model: Model, score: Scorer, acc: Acc)
    requires 0 < Pairs(dataset, prompts) && |dataset[0]| > 0 && !IsCall(dataset[0])
    ensures SingleLoop(dataset, prompts, model, score, 0, State(acc, None)) == Err(NameError)
  {
  }

  // ================================================================ datasets

  /** One dataset: prompts, the loop, then every sum divided by the number of samples (the
      accuracy ones in percent); the last result is carried to the next dataset. */
  function SingleDataset(dataset: seq<Sample>, model: Model, prompt: Prompter, score: Scorer, metrics: seq<string>,
                         last: Option<Last>)
    : (r: Result<(Report, Option<Last>)>)
    requires UnitScorer(score) && (last.Some? ==> MetricsInUnit(last.value.metrics))
    ensures r.Ok? ==> |dataset| > 0 && SinglePrompts(dataset, prompt).Ok?
    ensures r.Ok? ==> r.value.0.scores.size == |dataset|
    ensures r.Ok? ==> |r.value.0.saved| == Pairs(dataset, SinglePrompts(dataset, prompt).value)
    ensures r.Ok? ==> forall k :: k in r.value.0.scores.accuracy ==> 0.0 <= r.value.0.scores.accuracy[k] <= 100.0
    ensures r.Ok? ==> r.value.0.lines == JsonlLines(r.value.0.saved)
    ensures r.Ok? && r.value.1.Some? ==> MetricsInUnit(r.value.1.value.metrics)
    ensures r.Ok? && |r.value.0.saved| > 0 ==>
              r.value.1.Some? && r.value.1.value.metrics == r.value.0.saved[|r.value.0.saved| - 1].metrics
  {
    var prompts :- SinglePrompts(dataset, prompt);
    var st :- SingleLoop(dataset, prompts, model, score, 0, State(Acc(NoTotals, []), last));
    assert |st.acc.saved| > 0 ==> st.last.Some? && st.last.value.metrics == st.acc.saved[|st.acc.saved| - 1].metrics by {
      if 0 < Pairs(dataset, prompts) {
        SingleLoopLast(dataset, prompts, model, score, 0, State(Acc(NoTotals, []), last));
      }
    }
    SingleLoopBounded(dataset, prompts, model, score, 0, State(Acc(NoTotals, []), last));
    var scores :- Normalise(st.acc.totals, |dataset|, |dataset|, metrics);
    WithinWiden(st.acc.totals.scores, Pairs(dataset, prompts) as real, |dataset| as real);
    Percentages(st.acc.totals, |dataset|, |dataset|, metrics);
    Ok((Report(scores, st.acc.saved, JsonlLines(st.acc.saved)), st.last))
  }

  /** After a loop that processed at least one pair, the carried result is the one the
      last saved record holds. */
  lemma {:induction false} SingleLoopLast(dataset: seq<Sample>, prompts: seq<Prompt>, model: Model, score: Scorer,
                                          k: nat, st: State)
    requires k < Pairs(dataset, prompts)
    requires SingleLoop(dataset, prompts, model, score, k, st).Ok?
    ensures var r := SingleLoop(dataset, prompts, model, score, k, st).value;
      && r.last.Some? && |r.acc.saved| > 0
      && r.last.value.metrics == r.acc.saved[|r.acc.saved| - 1].metrics
    decreases Pairs(dataset, prompts) - k
  {
    var data := dataset[k];
    var out := model(prompts[k]);
    var res := SampleResult(data, out, score, st.last);
    var next := SingleStep(st.acc, data, out, res.value);
    var st' := State(next, Some(res.value));
    assert SingleLoop(dataset, prompts, model, score, k, st) == SingleLoop(dataset, prompts, model, score, k + 1, st');
    if k + 1 < Pairs(dataset, prompts) {
      SingleLoopLast(dataset, prompts, model, score, k + 1, st');
    }
  }

  /** The jsonl lines of one dataset as the repository writes them: `key_map` reads the
      enclosing `test_result`, which after the loop holds the last result computed. */
  function SingleLinesAsWritten(saved: seq<Saved>, last: Option<Last>): seq<Line> {
    if last.Some? then JsonlLinesAsWritten(saved, last.value.metrics) else []
  }

  /** As written, every jsonl line of a dataset carries the metrics of the dataset's last
      saved record, so each line whose own record scored differently is mislabelled; the
      lines `SingleDataset` keeps carry each record's own metrics. */
  lemma SingleDatasetAsWritten(dataset: seq<Sample>, model: Model, prompt: Prompter, score: Scorer,
                               metrics: seq<string>, last: Option<Last>)
    requires UnitScorer(score) && (last.Some? ==> MetricsInUnit(last.value.metrics))
    requires SingleDataset(dataset, model, prompt, score, metrics, last).Ok?
    ensures var (rep, last') := SingleDataset(dataset, model, prompt, score, metrics, last).value;
      var written := SingleLinesAsWritten(rep.saved, last');
      && |written| == |rep.saved| == |rep.lines|
      && (forall i :: 0 <= i < |rep.saved| ==> written[i] == Line(rep.saved[i].dataId, rep.saved[|rep.saved| - 1].metrics))
      && (forall i :: 0 <= i < |rep.saved| ==> rep.lines[i] == Line(rep.saved[i].dataId, rep.saved[i].metrics))
      && (forall i :: 0 <= i < |rep.saved| && rep.saved[i].metrics != rep.saved[|rep.saved| - 1].metrics ==>
            written[i] != rep.lines[i])
  {
    var (rep, last') := SingleDataset(dataset, model, prompt, score, metrics, last).value;
    LinesAsWritten(rep.saved, last');
  }

  lemma LinesAsWritten(saved: seq<Saved>, last: Option<Last>)
    requires |saved| > 0 ==> last.Some? && last.value.metrics == saved[|saved| - 1].metrics
    ensures var written := SingleLinesAsWritten(saved, last);
      && |written| == |saved|
      && (forall i :: 0 <= i < |saved| ==> written[i] == Line(saved[i].dataId, saved[|saved| - 1].metrics))
      && (forall i :: 0 <= i < |saved| && saved[i].metrics != saved[|saved| - 1].metrics ==>
            written[i] != JsonlLines(saved)[i])
  {
  }

  lemma WithinWiden(x: RoundMetrics, w1: real, w2: real)
    requires Within(x, NoMetrics, w1) && w1 <= w2
    ensures Within(x, NoMetrics, w2)
  {
  }

  /** An empty dataset divides by zero. */
  lemma EmptyDatasetFails(model: Model, prompt: Prompter, score: Scorer, metrics: seq<string>, last: Option<Last>)
    requires UnitScorer(score) && (last.Some? ==> MetricsInUnit(last.value.metrics))
    ensures SingleDataset([], model, prompt, score, metrics, last) == Err(ZeroDivisionError)
  {
  }

  /** Every dataset in order, threading the last result through. */
  function SingleDatasets(datasets: seq<seq<Sample>>, model: Model, prompt: Prompter, score: Scorer, metrics: seq<string>,
                          last: Option<Last>)
    : (r: Result<seq<Report>>)
    requires UnitScorer(score) && (last.Some? ==> MetricsInUnit(last.value.metrics))
    ensures r.Ok? ==> |r.value| == |datasets|
    ensures r.Ok? ==> forall i :: 0 <= i < |datasets| ==> r.value[i].scores.size == |datasets[i]|
  {
    if |datasets| == 0 then Ok([])
    else
      var d := SingleDataset(datasets[0], model, prompt, score, metrics, last);
      if d.Err? then Err(d.error)
      else
        var rest := SingleDatasets(datasets[1..], model, prompt, score, metrics, d.value.1);
        if rest.Err? then Err(rest.error)
        else
          assert forall i :: 0 < i < |datasets| ==> datasets[i] == datasets[1..][i - 1];
          Ok([d.value.0] + rest.value)
  }

  /** The single-round evaluation of a list of datasets. */
  function SingleRoundEval(datasets: seq<seq<Sample>>, model: Model, strict: bool, metrics: seq<string>)
    : (r: Result<seq<Report>>)
    ensures r.Ok? ==> |r.value| == |datasets|
    ensures r.Ok? ==> forall i :: 0 <= i < |datasets| ==> r.value[i].scores.size == |datasets[i]|
  {
    ScorerOfUnit(strict);
    SingleDatasets(datasets, model, SamplePrompt, ScorerOf(strict), metrics, None)
  }
}

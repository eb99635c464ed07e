/** Round enumeration of the multi-round evaluation: a round is a prefix of a sample that
    ends at a tool-call message with non-empty content, and its prompt is built from the
    golden history before that message. */
module Rounds {
  import opened Wrappers
  import opened JsonValues
  import opened Messages

  // ================================================================ round ends

  /** Whether a message ends a round; `len` of a non-sized content raises `TypeError`. */
  function IsRoundEnd(m: Message): (r: Result<bool>)
    ensures r.Err? <==> IsToolCallRole(m.role) && PyLen(m.content).Err?
    ensures r == Ok(true) <==> IsToolCallRole(m.role) && PyLen(m.content).Ok? && PyLen(m.content).value > 0
  {
    if !IsToolCallRole(m.role) then Ok(false)
    else
      var n :- PyLen(m.content);
      Ok(n > 0)
  }

  /** `tool_call_index_list`: the positions of the round ends, in increasing order. */
  function RoundEnds(data: Sample): (r: Result<seq<nat>>)
    ensures r.Err? <==> exists i :: 0 <= i < |data| && IsRoundEnd(data[i]).Err?
    ensures r.Ok? ==> forall k :: 0 <= k < |r.value| ==> r.value[k] < |data|
    ensures r.Ok? ==> forall k, l :: 0 <= k < l < |r.value| ==> r.value[k] < r.value[l]
    ensures r.Ok? ==> forall i :: 0 <= i < |data| ==> (i in r.value <==> IsRoundEnd(data[i]) == Ok(true))
  {
    if |data| == 0 then Ok([])
    else
      var init := data[..|data| - 1];
      assert forall i :: 0 <= i < |init| ==> init[i] == data[i];
      var ends :- RoundEnds(init);
      var last :- IsRoundEnd(data[|data| - 1]);
      Ok(if last then ends + [|data| - 1] else ends)
  }

  /** A round: a non-empty prefix whose last message ends a round. */
  predicate IsRound(round: Sample) {
    |round| > 0 && IsRoundEnd(round[|round| - 1]) == Ok(true)
  }

  /** The rounds `data[:i+1]` of a sample, one per round end. */
  function RoundsOf(data: Sample, ends: seq<nat>): (rs: seq<Sample>)
    requires forall k :: 0 <= k < |ends| ==> ends[k] < |data|
    ensures |rs| == |ends| && forall k :: 0 <= k < |ends| ==> rs[k] == data[..ends[k] + 1]
  {
    seq(|ends|, k requires 0 <= k < |ends| => data[..ends[k] + 1])
  }

  /** The rounds of a sample are exactly its prefixes ending at a round end, in order. */
  lemma RoundsArePrefixes(data: Sample)
    requires RoundEnds(data).Ok?
    ensures var rs := RoundsOf(data, RoundEnds(data).value);
      && (forall k :: 0 <= k < |rs| ==> IsRound(rs[k]) && rs[k] <= data)
      && (forall i :: 0 <= i < |data| && IsRoundEnd(data[i]) == Ok(true) ==> data[..i + 1] in rs)
  {
    var ends := RoundEnds(data).value;
    var rs := RoundsOf(data, ends);
    forall k | 0 <= k < |rs|
      ensures IsRound(rs[k]) && rs[k] <= data
    {
      assert ends[k] in ends;
      assert rs[k][|rs[k]| - 1] == data[ends[k]];
    }
    forall i | 0 <= i < |data| && IsRoundEnd(data[i]) == Ok(true)
      ensures data[..i + 1] in rs
    {
      var k :| 0 <= k < |ends| && ends[k] == i;
      assert rs[k] == data[..i + 1];
    }
  }

  // ================================================================ prompts

  datatype Prompt = Prompt(history: seq<Message>, tools: Json, date: Option<Json>)

  /** Roles the prompt history leaves out. */
  predicate IsMetaRole(role: string) {
    role == "id" || role == "current_date" || role == "candidate_tools"
  }

  /** The chat history of a prompt: every message whose role is not a meta role, in order. */
  function History(msgs: seq<Message>): (h: seq<Message>)
    ensures |h| <= |msgs|
    ensures forall i :: 0 <= i < |h| ==> !IsMetaRole(h[i].role) && h[i] in msgs
  {
    if |msgs| == 0 then []
    else (if IsMetaRole(msgs[0].role) then [] else [msgs[0]]) + History(msgs[1..])
  }

  lemma {:induction false} HistoryAppend(msgs: seq<Message>, m: Message)
    ensures History(msgs + [m]) == History(msgs) + (if IsMetaRole(m.role) then [] else [m])
  {
    if |msgs| > 0 {
      assert (msgs + [m])[1..] == msgs[1..] + [m];
      HistoryAppend(msgs[1..], m);
    }
  }

  /** The tool list of a `candidate_tools` message: an empty one becomes `[{}]`. */
  function ToolList(content: Json): (r: Json)
    requires PyLen(content).Ok?
    ensures Truthy(r)
    ensures PyLen(content).value > 0 ==> r == content
  {
    if PyLen(content).value == 0 then JList([JObj([])]) else content
  }

  datatype Collected = Collected(history: seq<Message>, tools: Option<Json>, date: Option<Json>)

  /** One pass over the messages before a round end; the last `candidate_tools` and the
      last `current_date` win. */
  function Collect(msgs: seq<Message>): (r: Result<Collected>)
    ensures r.Err? <==> exists i :: 0 <= i < |msgs| && msgs[i].role == "candidate_tools" && PyLen(msgs[i].content).Err?
    ensures r.Ok? ==> r.value.history == History(msgs)
    ensures r.Ok? ==> r.value.tools.None? == LastIndex(msgs, "candidate_tools").None?
    ensures r.Ok? && r.value.tools.Some? ==>
              PyLen(msgs[LastIndex(msgs, "candidate_tools").value].content).Ok?
              && r.value.tools.value == ToolList(msgs[LastIndex(msgs, "candidate_tools").value].content)
    ensures r.Ok? ==> r.value.date == (match LastIndex(msgs, "current_date")
                                       case None => None
                                       case Some(i) => Some(msgs[i].content))
  {
    if |msgs| == 0 then Ok(Collected([], None, None))
    else
      var init := msgs[..|msgs| - 1];
      var m := msgs[|msgs| - 1];
      assert msgs == init + [m];
      assert forall i :: 0 <= i < |init| ==> init[i] == msgs[i];
      var c :- Collect(init);
      HistoryAppend(init, m);
      if m.role == "id" then Ok(c)
      else if m.role == "current_date" then Ok(c.(date := Some(m.content)))
      else if m.role == "candidate_tools" then
        var n :- PyLen(m.content);
        Ok(c.(tools := Some(ToolList(m.content))))
      else Ok(c.(history := c.history + [m]))
  }

  /** The prompt of the round ending at `data[i]`, built from `data[:i]`; `None` when no
      candidate tools precede it. */
  function PromptFor(msgs: seq<Message>): (r: Result<Option<Prompt>>)
    ensures r.Err? <==> Collect(msgs).Err?
    ensures r.Ok? ==> (r.value.None? <==> forall i :: 0 <= i < |msgs| ==> msgs[i].role != "candidate_tools")
    ensures r.Ok? && r.value.Some? ==> r.value.value.history == History(msgs)
  {
    var c :- Collect(msgs);
    if c.tools.None? || !Truthy(c.tools.value) then Ok(None)
    else Ok(Some(Prompt(c.history, c.tools.value, c.date)))
  }

  /** The messages before each round end. */
  function Prefixes(data: Sample, ends: seq<nat>): (r: seq<Sample>)
    requires forall k :: 0 <= k < |ends| ==> ends[k] < |data|
    ensures |r| == |ends| && forall k :: 0 <= k < |ends| ==> r[k] == data[..ends[k]]
  {
    seq(|ends|, k requires 0 <= k < |ends| => data[..ends[k]])
  }

  /** The prompts of the rounds of one sample; a round without a prompt adds nothing. */
  function PromptsAt(data: Sample, ends: seq<nat>): (r: Result<seq<Prompt>>)
    requires forall k :: 0 <= k < |ends| ==> ends[k] < |data|
  {
    Gather(PromptFor, Prefixes(data, ends))
  }

  /** Success means every round's prompt was built, and no round adds more than one prompt. */
  lemma PromptsAtBuilt(data: Sample, ends: seq<nat>)
    requires forall k :: 0 <= k < |ends| ==> ends[k] < |data|
    ensures PromptsAt(data, ends).Ok? <==> forall k :: 0 <= k < |ends| ==> PromptFor(data[..ends[k]]).Ok?
    ensures PromptsAt(data, ends).Ok? ==> |PromptsAt(data, ends).value| <= |ends|
  {
    var xs := Prefixes(data, ends);
    GatherOk(PromptFor, xs);
    assert forall k :: 0 <= k < |ends| ==> PromptFor(xs[k]) == PromptFor(data[..ends[k]]);
  }

  /** The round ending at `e` has a prompt. */
  predicate HasPrompt(data: Sample, e: nat)
    requires e <= |data|
  {
    PromptFor(data[..e]).Ok? && PromptFor(data[..e]).value.Some?
  }

  /** The prompt list is as long as the round list exactly when every round has tools, and
      then it holds the rounds' prompts in order. */
  lemma PromptsAtFull(data: Sample, ends: seq<nat>)
    requires forall k :: 0 <= k < |ends| ==> ends[k] < |data|
    requires PromptsAt(data, ends).Ok?
    ensures |PromptsAt(data, ends).value| == |ends| <==> forall k :: 0 <= k < |ends| ==> HasPrompt(data, ends[k])
    ensures |PromptsAt(data, ends).value| == |ends| ==>
              forall k :: 0 <= k < |ends| ==> PromptFor(data[..ends[k]]) == Ok(Some(PromptsAt(data, ends).value[k]))
  {
    var xs := Prefixes(data, ends);
    GatherFull(PromptFor, xs);
    assert forall k :: 0 <= k < |ends| ==> PromptFor(xs[k]) == PromptFor(data[..ends[k]]);
    if |PromptsAt(data, ends).value| == |ends| {
      forall k | 0 <= k < |ends| ensures PromptFor(data[..ends[k]]) == Ok(Some(PromptsAt(data, ends).value[k])) {
        GatherAt(PromptFor, xs, k);
      }
    }
  }

  // ================================================================ the whole dataset

  function Sum(xs: seq<nat>): nat {
    if |xs| == 0 then 0 else xs[0] + Sum(xs[1..])
  }

  lemma {:induction false} SumAppend(xs: seq<nat>, x: nat)
    ensures Sum(xs + [x]) == Sum(xs) + x
  {
    if |xs| > 0 {
      assert (xs + [x])[1..] == xs[1..] + [x];
      SumAppend(xs[1..], x);
    }
  }

  /** `new_dataset`, `data_num` and `prompt_list`. */
  datatype Prepared = Prepared(rounds: seq<Sample>, counts: seq<nat>, prompts: seq<Prompt>)

  datatype SamplePrep = SamplePrep(rounds: seq<Sample>, prompts: seq<Prompt>)

  /** One sample: its round ends, then the prompts of its rounds. */
  function PrepareSample(data: Sample): (r: Result<SamplePrep>)
    ensures r.Ok? ==> RoundEnds(data).Ok? && r.value.rounds == RoundsOf(data, RoundEnds(data).value)
    ensures r.Ok? ==> forall k :: 0 <= k < |r.value.rounds| ==> IsRound(r.value.rounds[k])
    ensures r.Ok? ==> |r.value.prompts| <= |r.value.rounds|
  {
    var ends :- RoundEnds(data);
    PromptsAtBuilt(data, ends);
    var ps :- PromptsAt(data, ends);
    RoundsArePrefixes(data);
    Ok(SamplePrep(RoundsOf(data, ends), ps))
  }

  /** Appends one prepared sample. */
  function Extend(p: Prepared, sp: SamplePrep): (r: Prepared)
    requires |p.rounds| == Sum(p.counts)
    ensures |r.rounds| == Sum(r.counts) && r.counts == p.counts + [|sp.rounds|]
    ensures r.rounds == p.rounds + sp.rounds && r.prompts == p.prompts + sp.prompts
  {
    SumAppend(p.counts, |sp.rounds|);
    Prepared(p.rounds + sp.rounds, p.counts + [|sp.rounds|], p.prompts + sp.prompts)
  }

  /** The preparation loop over the samples, in order. */
  function Prepare(dataset: seq<Sample>): (r: Result<Prepared>)
    ensures r.Ok? ==> |r.value.counts| == |dataset| && |r.value.rounds| == Sum(r.value.counts)
    ensures r.Ok? ==> forall k :: 0 <= k < |r.value.rounds| ==> IsRound(r.value.rounds[k])
    ensures r.Ok? ==> |r.value.prompts| <= |r.value.rounds|
  {
    if |dataset| == 0 then Ok(Prepared([], [], []))
    else
      var init := dataset[..|dataset| - 1];
      var pr := Prepare(init);
      var sr := PrepareSample(dataset[|dataset| - 1]);
      if pr.Err? then Err(pr.error)
      else if sr.Err? then Err(sr.error)
      else
        PrepareRounds(pr.value, sr.value);
        Ok(Extend(pr.value, sr.value))
  }

  lemma PrepareCounts(dataset: seq<Sample>, p: Prepared, sp: SamplePrep)
    requires |dataset| > 0
    requires |p.counts| == |dataset| - 1 && |p.rounds| == Sum(p.counts)
    requires forall j :: 0 <= j < |dataset| - 1 ==> RoundEnds(dataset[j]).Ok? && p.counts[j] == |RoundEnds(dataset[j]).value|
    requires RoundEnds(dataset[|dataset| - 1]).Ok? && sp.rounds == RoundsOf(dataset[|dataset| - 1], RoundEnds(dataset[|dataset| - 1]).value)
    ensures forall j :: 0 <= j < |dataset| ==> RoundEnds(dataset[j]).Ok? && Extend(p, sp).counts[j] == |RoundEnds(dataset[j]).value|
  {
  }

  lemma PrepareRounds(p: Prepared, sp: SamplePrep)
    requires |p.rounds| == Sum(p.counts)
    requires forall k :: 0 <= k < |p.rounds| ==> IsRound(p.rounds[k])
    requires forall k :: 0 <= k < |sp.rounds| ==> IsRound(sp.rounds[k])
    ensures forall k :: 0 <= k < |Extend(p, sp).rounds| ==> IsRound(Extend(p, sp).rounds[k])
  {
    var r := Extend(p, sp);
    forall k | 0 <= k < |r.rounds|
      ensures IsRound(r.rounds[k])
    {
      if k >= |p.rounds| {
        assert r.rounds[k] == sp.rounds[k - |p.rounds|];
      }
    }
  }

  /** `data_num[j]` is the number of rounds of sample `j`. */
  lemma {:induction false} PrepareCountsAre(dataset: seq<Sample>)
    requires Prepare(dataset).Ok?
    ensures forall j :: 0 <= j < |dataset| ==>
              RoundEnds(dataset[j]).Ok? && Prepare(dataset).value.counts[j] == |RoundEnds(dataset[j]).value|
  {
    if |dataset| > 0 {
      var init := dataset[..|dataset| - 1];
      var r := Prepare(dataset);
      assert Prepare(init).Ok? && PrepareSample(dataset[|dataset| - 1]).Ok?;
      var p := Prepare(init).value;
      var sp := PrepareSample(dataset[|dataset| - 1]).value;
      assert r == Ok(Extend(p, sp));
      PrepareCountsAre(init);
      assert forall j :: 0 <= j < |init| ==> init[j] == dataset[j];
      PrepareCounts(dataset, p, sp);
    }
  }
}

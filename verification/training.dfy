/** Turning a canonical sample into a training example: the messages the chat template
    sees, the formatted prompt cut into target and non-target spans, the token ids with
    their labels, and the train/validation split of a processed dataset.

    The chat template and the tokenizer belong to the model and are not modelled: the
    template is a `Formatter` function and the tokenizer a `Tokenizer` function. */
module Training {
  import opened Wrappers
  import opened JsonValues
  import opened Text
  import opened Messages

  // ================================================================ messages for the template

  /** The roles the chat template receives. */
  predicate Passed(role: string) {
    role == "user" || role == "assistant" || role == "tool_call" || role == "tool_response"
  }

  /** The messages handed to the template: those with a passed role, in order. */
  function PassedMessages(data: Sample): (r: Sample)
    ensures |r| <= |data|
    ensures forall k :: 0 <= k < |r| ==> Passed(r[k].role) && r[k] in data
  {
    if |data| == 0 then []
    else (if Passed(data[0].role) then [data[0]] else []) + PassedMessages(data[1..])
  }

  /** The passed messages of two pieces are those of each piece, in order. */
  lemma {:induction false} PassedAppend(a: Sample, b: Sample)
    ensures PassedMessages(a + b) == PassedMessages(a) + PassedMessages(b)
  {
    if |a| == 0 {
      assert a + b == b;
    } else {
      assert (a + b)[1..] == a[1..] + b;
      PassedAppend(a[1..], b);
      assert PassedMessages(a + b) == (if Passed(a[0].role) then [a[0]] else []) + PassedMessages(a[1..] + b);
    }
  }

  /** No message with a passed role is dropped. */
  lemma {:induction false} PassedKept(data: Sample, i: nat)
    requires i < |data| && Passed(data[i].role)
    ensures data[i] in PassedMessages(data)
  {
    if i > 0 {
      assert data[1..][i - 1] == data[i];
      PassedKept(data[1..], i - 1);
    }
  }

  /** The content of the last `candidate_tools` message, or the empty list. */
  function CandidateTools(data: Sample): (r: Json)
    ensures LastIndex(data, "candidate_tools").None? ==> r == JList([])
    ensures LastIndex(data, "candidate_tools").Some? ==> r == data[LastIndex(data, "candidate_tools").value].content
  {
    match LastIndex(data, "candidate_tools")
    case None => JList([])
    case Some(i) => data[i].content
  }

  /** The chat template without a trailing generation prompt. */
  type Formatter = (Sample, Json) -> string

  /** The prompt the segmentation cuts up. */
  function Prompt(data: Sample, format: Formatter): string {
    format(PassedMessages(data), CandidateTools(data))
  }

  // ================================================================ segmentation

  /** A span of the formatted prompt and whether the model is trained on it. */
  datatype Segment = Segment(text: string, target: bool)

  /** The texts of the segments, joined. */
  function Joined(segs: seq<Segment>): string {
    if |segs| == 0 then "" else segs[0].text + Joined(segs[1..])
  }

  lemma {:induction false} JoinedAppend(a: seq<Segment>, b: seq<Segment>)
    ensures Joined(a + b) == Joined(a) + Joined(b)
  {
    if |a| == 0 {
      assert a + b == b;
    } else {
      assert (a + b)[1..] == a[1..] + b;
      JoinedAppend(a[1..], b);
    }
  }

  lemma JoinedTwo(x: Segment, y: Segment)
    ensures Joined([x, y]) == x.text + y.text
  {
    assert [x, y][1..] == [y];
    assert Joined([y]) == y.text + Joined([]);
  }

  /** One pass of the segmentation loop from `lastEnd`: the segments it appends, and
      whether it goes round again from `next`. */
  datatype Pass = Pass(segs: seq<Segment>, more: bool, next: nat)

  /** The non-target text between the last `assistant_end` and the prompt, if any. */
  function Before(text: string, lastEnd: nat, start: nat): (r: seq<Segment>)
    requires lastEnd <= start <= |text|
  {
    if start > lastEnd then [Segment(text[lastEnd..start], false)] else []
  }

  /** The pass that found the generation prompt at `start`, and `assistant_end` at `end`
      (or not at all, when `end` is negative): text before the prompt, the prompt, then
      the text after it, up to and including `assistant_end` as a target, or to the end of
      the text as a non-target. */
  function PassAt(text: string, gp: string, ae: string, lastEnd: nat, start: nat, end: int): (r: Pass)
    requires lastEnd <= start && start + |gp| <= |text|
    requires end >= 0 ==> start + |gp| <= end && end + |ae| <= |text|
    requires |gp| > 0 || |ae| > 0
    ensures r.more ==> lastEnd < r.next <= |text|
  {
    var stop := if end < 0 then |text| else end + |ae|;
    var segs := Before(text, lastEnd, start) + [Segment(gp, false), Segment(text[start + |gp|..stop], end >= 0)];
    Pass(segs, end >= 0, if end < 0 then 0 else stop)
  }

  /** Text before the next generation prompt, the prompt itself, then up to and including
      the next `assistant_end` as a target; with no generation prompt left, the rest of
      the text, and with no `assistant_end` left, the rest after the prompt. */
  function Iteration(text: string, gp: string, ae: string, lastEnd: nat): (r: Pass)
    requires |gp| > 0 || |ae| > 0
    requires lastEnd <= |text|
    ensures r.more ==> lastEnd < r.next <= |text|
  {
    var start := Find(text, gp, lastEnd);
    if start < 0 then
      Pass(if lastEnd < |text| then [Segment(text[lastEnd..], false)] else [], false, 0)
    else
      PassAt(text, gp, ae, lastEnd, start, Find(text, ae, start + |gp|))
  }

  /** The segmentation loop from `lastEnd`. The loop makes no progress when both markers
      are empty, so at least one of them is not. */
  function Segments(text: string, gp: string, ae: string, lastEnd: nat): (r: seq<Segment>)
    requires |gp| > 0 || |ae| > 0
    requires lastEnd <= |text|
    decreases |text| - lastEnd
  {
    var p := Iteration(text, gp, ae, lastEnd);
    if p.more then p.segs + Segments(text, gp, ae, p.next) else p.segs
  }

  lemma SliceThree(s: string, a: nat, b: nat, c: nat, d: nat)
    requires a <= b <= c <= d <= |s|
    ensures s[a..d] == s[a..b] + s[b..c] + s[c..d]
  {
  }

  lemma BeforeJoin(text: string, lastEnd: nat, start: nat)
    requires lastEnd <= start <= |text|
    ensures Joined(Before(text, lastEnd, start)) == text[lastEnd..start]
  {
    if start > lastEnd {
      assert Joined(Before(text, lastEnd, start)) == text[lastEnd..start] + Joined([]);
    }
  }

  /** The text before the prompt, the prompt and the text after it join to the whole span. */
  lemma JoinThree(text: string, gp: string, lastEnd: nat, start: nat, stop: nat, target: bool)
    requires lastEnd <= start && start + |gp| <= stop <= |text| && text[start..start + |gp|] == gp
    ensures Joined(Before(text, lastEnd, start) + [Segment(gp, false), Segment(text[start + |gp|..stop], target)])
            == text[lastEnd..stop]
  {
    var pre := Before(text, lastEnd, start);
    var tail := [Segment(gp, false), Segment(text[start + |gp|..stop], target)];
    BeforeJoin(text, lastEnd, start);
    JoinedTwo(tail[0], tail[1]);
    JoinedAppend(pre, tail);
    SliceThree(text, lastEnd, start, start + |gp|, stop);
  }

  /** A pass that found the prompt appends exactly the text it moves over. */
  lemma PassAtJoin(text: string, gp: string, ae: string, lastEnd: nat, start: nat, end: int)
    requires lastEnd <= start && start + |gp| <= |text| && text[start..start + |gp|] == gp
    requires end >= 0 ==> start + |gp| <= end && end + |ae| <= |text|
    requires |gp| > 0 || |ae| > 0
    ensures var p := PassAt(text, gp, ae, lastEnd, start, end);
            Joined(p.segs) == text[lastEnd..if p.more then p.next else |text|]
  {
    JoinThree(text, gp, lastEnd, start, if end < 0 then |text| else end + |ae|, end >= 0);
  }

  /** One pass appends exactly the text it moves over. */
  lemma IterationJoin(text: string, gp: string, ae: string, lastEnd: nat)
    requires |gp| > 0 || |ae| > 0
    requires lastEnd <= |text|
    ensures var p := Iteration(text, gp, ae, lastEnd);
            Joined(p.segs) == text[lastEnd..if p.more then p.next else |text|]
  {
    var start := Find(text, gp, lastEnd);
    if start < 0 {
      if lastEnd < |text| {
        assert Joined([Segment(text[lastEnd..], false)]) == text[lastEnd..] + Joined([]);
      }
    } else {
      PassAtJoin(text, gp, ae, lastEnd, start, Find(text, ae, start + |gp|));
    }
  }

  /** Joining the segments from `lastEnd` gives back the rest of the prompt. */
  lemma {:induction false} SegmentsJoin(text: string, gp: string, ae: string, lastEnd: nat)
    requires |gp| > 0 || |ae| > 0
    requires lastEnd <= |text|
    ensures Joined(Segments(text, gp, ae, lastEnd)) == text[lastEnd..]
    decreases |text| - lastEnd
  {
    var p := Iteration(text, gp, ae, lastEnd);
    IterationJoin(text, gp, ae, lastEnd);
    if p.more {
      SegmentsJoin(text, gp, ae, p.next);
      JoinedAppend(p.segs, Segments(text, gp, ae, p.next));
      assert text[lastEnd..] == text[lastEnd..p.next] + text[p.next..];
    }
  }

  /** The segmentation of the whole prompt reproduces it exactly. */
  lemma SegmentationRoundTrip(text: string, gp: string, ae: string)
    requires |gp| > 0 || |ae| > 0
    ensures Joined(Segments(text, gp, ae, 0)) == text
  {
    SegmentsJoin(text, gp, ae, 0);
    assert text[0..] == text;
  }

  /** Every target segment comes right after a non-target generation prompt and ends with
      `assistant_end`. */
  predicate TargetsFramed(segs: seq<Segment>, gp: string, ae: string) {
    forall i :: 0 <= i < |segs| && segs[i].target ==>
      i > 0 && segs[i - 1] == Segment(gp, false) && EndsWith(segs[i].text, ae)
  }

  lemma TargetsFramedAppend(a: seq<Segment>, b: seq<Segment>, gp: string, ae: string)
    requires TargetsFramed(a, gp, ae) && TargetsFramed(b, gp, ae)
    ensures TargetsFramed(a + b, gp, ae)
  {
    forall i | 0 <= i < |a + b| && (a + b)[i].target
      ensures i > 0 && (a + b)[i - 1] == Segment(gp, false) && EndsWith((a + b)[i].text, ae)
    {
      if i < |a| {
        assert (a + b)[i] == a[i] && (a + b)[i - 1] == a[i - 1];
      } else {
        assert (a + b)[i] == b[i - |a|];
        assert (a + b)[i - 1] == b[i - |a| - 1];
      }
    }
  }

  /** The generation prompt followed by the text up to and including `assistant_end`. */
  lemma PromptTargetFramed(text: string, gp: string, ae: string, body: nat, end: nat)
    requires body <= end && OccursAt(text, ae, end)
    ensures TargetsFramed([Segment(gp, false), Segment(text[body..end + |ae|], true)], gp, ae)
  {
    var out := text[body..end + |ae|];
    assert out[|out| - |ae|..] == text[end..end + |ae|];
  }

  /** In a pass that found the prompt, the only target is the text after it, ending with
      `assistant_end`. */
  lemma PassAtFramed(text: string, gp: string, ae: string, lastEnd: nat, start: nat, end: int)
    requires lastEnd <= start && start + |gp| <= |text|
    requires end >= 0 ==> start + |gp| <= end && OccursAt(text, ae, end)
    requires |gp| > 0 || |ae| > 0
    ensures TargetsFramed(PassAt(text, gp, ae, lastEnd, start, end).segs, gp, ae)
  {
    FramedThree(text, gp, ae, lastEnd, start, end);
  }

  /** The segments of a pass: only the text after the prompt can be a target. */
  lemma FramedThree(text: string, gp: string, ae: string, lastEnd: nat, start: nat, end: int)
    requires lastEnd <= start && start + |gp| <= |text|
    requires end >= 0 ==> start + |gp| <= end && OccursAt(text, ae, end)
    ensures var stop := if end < 0 then |text| else end + |ae|;
            TargetsFramed(Before(text, lastEnd, start) + [Segment(gp, false), Segment(text[start + |gp|..stop], end >= 0)], gp, ae)
  {
    var stop := if end < 0 then |text| else end + |ae|;
    var pre := Before(text, lastEnd, start);
    var tail := [Segment(gp, false), Segment(text[start + |gp|..stop], end >= 0)];
    assert TargetsFramed(pre, gp, ae);
    if end >= 0 {
      PromptTargetFramed(text, gp, ae, start + |gp|, end);
    }
    TargetsFramedAppend(pre, tail, gp, ae);
  }

  lemma IterationFramed(text: string, gp: string, ae: string, lastEnd: nat)
    requires |gp| > 0 || |ae| > 0
    requires lastEnd <= |text|
    ensures TargetsFramed(Iteration(text, gp, ae, lastEnd).segs, gp, ae)
  {
    var start := Find(text, gp, lastEnd);
    var p := Iteration(text, gp, ae, lastEnd);
    if start >= 0 {
      var end := Find(text, ae, start + |gp|);
      assert p == PassAt(text, gp, ae, lastEnd, start, end);
      PassAtFramed(text, gp, ae, lastEnd, start, end);
    } else {
      assert forall i :: 0 <= i < |p.segs| ==> !p.segs[i].target;
    }
  }

  lemma {:induction false} SegmentsFramed(text: string, gp: string, ae: string, lastEnd: nat)
    requires |gp| > 0 || |ae| > 0
    requires lastEnd <= |text|
    ensures TargetsFramed(Segments(text, gp, ae, lastEnd), gp, ae)
    decreases |text| - lastEnd
  {
    var p := Iteration(text, gp, ae, lastEnd);
    IterationFramed(text, gp, ae, lastEnd);
    if p.more {
      SegmentsFramed(text, gp, ae, p.next);
      TargetsFramedAppend(p.segs, Segments(text, gp, ae, p.next), gp, ae);
    }
  }

  /** A generation prompt at `lastEnd` or later with no `assistant_end` after it: the loop
      ends with the prompt and the (possibly empty) remainder, neither a target. */
  lemma UnclosedPromptEnds(text: string, gp: string, ae: string, lastEnd: nat)
    requires |gp| > 0 || |ae| > 0
    requires lastEnd <= |text|
    requires Find(text, gp, lastEnd) >= 0
    requires Find(text, ae, Find(text, gp, lastEnd) + |gp|) < 0
    ensures var r := Segments(text, gp, ae, lastEnd);
            |r| >= 2 && r[|r| - 2] == Segment(gp, false) &&
            r[|r| - 1] == Segment(text[Find(text, gp, lastEnd) + |gp|..], false) &&
            forall i :: 0 <= i < |r| ==> !r[i].target
  {
  }

  // ================================================================ tokens and labels

  /** What the tokenizer gives for one text: `input_ids` and `attention_mask`. */
  datatype Encoding = Encoding(ids: seq<int>, mask: seq<int>)

  type Tokenizer = string -> Encoding

  /** The label that hides a token from the loss. */
  const Ignored: int := -100

  /** `{"input_ids", "attention_mask", "labels"}` of a prepared example. */
  datatype Example = Example(inputIds: seq<int>, attentionMask: seq<int>, labels: seq<int>)

  /** `n` copies of `x`. */
  function Repeat(x: int, n: nat): (r: seq<int>)
    ensures |r| == n && forall k :: 0 <= k < n ==> r[k] == x
  {
    seq(n, _ => x)
  }

  /** The per-segment encodings, appended. */
  function Encode(segs: seq<Segment>, tok: Tokenizer): (r: Example)
    ensures |r.labels| == |r.inputIds|
  {
    if |segs| == 0 then Example([], [], [])
    else
      var e := tok(segs[0].text);
      var rest := Encode(segs[1..], tok);
      Example(e.ids + rest.inputIds, e.mask + rest.attentionMask,
              (if segs[0].target then e.ids else Repeat(Ignored, |e.ids|)) + rest.labels)
  }

  /** For every token, whether it came from a target segment. */
  function TargetMask(segs: seq<Segment>, tok: Tokenizer): (r: seq<bool>)
    ensures |r| == |Encode(segs, tok).inputIds|
  {
    if |segs| == 0 then []
    else seq(|tok(segs[0].text).ids|, _ => segs[0].target) + TargetMask(segs[1..], tok)
  }

  /** A label is the token itself inside a target segment and `-100` elsewhere. */
  lemma {:induction false} LabelsFollowMask(segs: seq<Segment>, tok: Tokenizer)
    ensures var ex := Encode(segs, tok);
            forall k :: 0 <= k < |ex.labels| ==>
              ex.labels[k] == (if TargetMask(segs, tok)[k] then ex.inputIds[k] else Ignored)
  {
    if |segs| > 0 {
      LabelsFollowMask(segs[1..], tok);
      var ex := Encode(segs, tok);
      var ids := tok(segs[0].text).ids;
      var rest := Encode(segs[1..], tok);
      var m := TargetMask(segs, tok);
      forall k | 0 <= k < |ex.labels|
        ensures ex.labels[k] == (if m[k] then ex.inputIds[k] else Ignored)
      {
        if k >= |ids| {
          assert ex.labels[k] == rest.labels[k - |ids|];
          assert ex.inputIds[k] == rest.inputIds[k - |ids|];
          assert m[k] == TargetMask(segs[1..], tok)[k - |ids|];
        }
      }
    }
  }

  /** `prepare_one_for_transformers_trainer(data, formatter, tokenizer)`. */
  function PrepareOne(data: Sample, format: Formatter, gp: string, ae: string, tok: Tokenizer): (r: Example)
    requires |gp| > 0 || |ae| > 0
    ensures |r.labels| == |r.inputIds|
  {
    Encode(Segments(Prompt(data, format), gp, ae, 0), tok)
  }

  /** The prepared example's ids are the tokens of segments that spell out the prompt,
      and its labels keep exactly the tokens of framed target segments. */
  lemma PrepareOneMeans(data: Sample, format: Formatter, gp: string, ae: string, tok: Tokenizer)
    requires |gp| > 0 || |ae| > 0
    ensures var segs := Segments(Prompt(data, format), gp, ae, 0);
            Joined(segs) == Prompt(data, format) && TargetsFramed(segs, gp, ae) &&
            PrepareOne(data, format, gp, ae, tok) == Encode(segs, tok) &&
            forall k :: 0 <= k < |Encode(segs, tok).labels| ==>
              Encode(segs, tok).labels[k] ==
                (if TargetMask(segs, tok)[k] then Encode(segs, tok).inputIds[k] else Ignored)
  {
    var text := Prompt(data, format);
    SegmentationRoundTrip(text, gp, ae);
    SegmentsFramed(text, gp, ae, 0);
    LabelsFollowMask(Segments(text, gp, ae, 0), tok);
  }

  // ================================================================ train / validation split

  /** Python's `int(x)`: truncation toward zero. */
  function Trunc(x: real): (r: int)
    ensures x >= 0.0 ==> r as real <= x < r as real + 1.0
    ensures x < 0.0 ==> r as real - 1.0 < x <= r as real
  {
    if x >= 0.0 then x.Floor else -((-x).Floor)
  }

  /** Where `items[:c]` ends on a list of length `n`: negative indices count from the end,
      and both ends clamp. */
  function SliceEnd(c: int, n: nat): (r: nat)
    ensures r <= n
    ensures 0 <= c <= n ==> r == c
    ensures c > n ==> r == n
    ensures c < 0 ==> r == if n + c < 0 then 0 else n + c
  {
    if c < 0 then (if n + c < 0 then 0 else n + c) else if c > n then n else c
  }

  /** Scaling a length by a non-negative ratio and truncating stays within the
      length for a ratio of at most one, and reaches past it otherwise. */
  lemma ScaledWithin(n: nat, ratio: real)
    requires 0.0 <= ratio
    ensures ratio <= 1.0 ==> 0 <= Trunc(n as real * ratio) <= n
    ensures ratio > 1.0 ==> Trunc(n as real * ratio) >= n
  {
    var x := n as real * ratio;
    assert 0.0 <= x;
    if ratio <= 1.0 {
      assert x <= n as real * 1.0;
    } else {
      assert x >= n as real * 1.0;
    }
  }

  /** The saved datasets: one file, or a training and a validation file. */
  datatype Saved<T> = Whole(all: seq<T>) | Split(train: seq<T>, validation: seq<T>)

  /** The split of a processed dataset: none for ratio 1, otherwise the first
      `int(len * ratio)` items for training and the rest for validation. */
  function SplitDataset<T>(items: seq<T>, ratio: real): (r: Saved<T>)
    ensures ratio == 1.0 <==> r.Whole?
    ensures r.Whole? ==> r.all == items
    ensures r.Split? ==> r.train + r.validation == items
    ensures r.Split? && 0.0 <= ratio ==>
              |r.train| == (if ratio <= 1.0 then Trunc(|items| as real * ratio) else |items|)
  {
    if ratio == 1.0 then Whole(items)
    else
      var c := SliceEnd(Trunc(|items| as real * ratio), |items|);
      assert 0.0 <= ratio ==> c == (if ratio <= 1.0 then Trunc(|items| as real * ratio) else |items|) by {
        if 0.0 <= ratio {
          ScaledWithin(|items|, ratio);
        }
      }
      assert items[..c] + items[c..] == items;
      Split(items[..c], items[c..])
  }

  /** With a ratio in [0, 1] the training part has `floor(n * ratio)` items. */
  lemma SplitSize<T>(items: seq<T>, ratio: real)
    requires 0.0 <= ratio < 1.0
    ensures SplitDataset(items, ratio).Split?
    ensures |SplitDataset(items, ratio).train| as real <= |items| as real * ratio
    ensures |items| as real * ratio < |SplitDataset(items, ratio).train| as real + 1.0
  {
    var n := |items| as real;
    assert 0.0 <= n * ratio <= n by {
      assert n * ratio <= n * 1.0;
    }
  }
}

/** The data selection in front of the evaluation: truncating every sample according to
    the evaluation mode, filtering samples by tag files, dropping the samples and datasets
    that end up empty, and averaging the results of several datasets weighted by size.

    Reading the dataset and tag files is outside the model: datasets arrive as named lists
    of samples, and a tag file as its parsed `tagged_result` dictionary. */
module Selection {
  import opened Wrappers
  import opened JsonValues
  import Text
  import opened Messages
  import opened Rounds

  // ================================================================ one sample

  /** Scanning back from position `n - 1`: the last round end, `None` when there is none,
      or the failure of the first message that cannot be tested. */
  function LastEnd(data: Sample, n: nat): (r: Result<Option<nat>>)
    requires n <= |data|
    ensures r.Ok? && r.value.Some? ==>
              r.value.value < n && IsRoundEnd(data[r.value.value]) == Ok(true)
              && forall k :: r.value.value < k < n ==> IsRoundEnd(data[k]) == Ok(false)
    ensures r.Ok? && r.value.None? ==> forall k :: 0 <= k < n ==> IsRoundEnd(data[k]) == Ok(false)
    ensures r.Err? ==> exists k :: 0 <= k < n && IsRoundEnd(data[k]).Err?
                                   && forall l :: k < l < n ==> IsRoundEnd(data[l]) == Ok(false)
  {
    if n == 0 then Ok(None)
    else
      var e := IsRoundEnd(data[n - 1]);
      if e.Err? then Err(e.error)
      else if e.value then Ok(Some(n - 1))
      else LastEnd(data, n - 1)
  }

  /** Scanning forward from position `i`: the first round end. */
  function FirstEnd(data: Sample, i: nat): (r: Result<Option<nat>>)
    requires i <= |data|
    ensures r.Ok? && r.value.Some? ==>
              i <= r.value.value < |data| && IsRoundEnd(data[r.value.value]) == Ok(true)
              && forall k :: i <= k < r.value.value ==> IsRoundEnd(data[k]) == Ok(false)
    ensures r.Ok? && r.value.None? ==> forall k :: i <= k < |data| ==> IsRoundEnd(data[k]) == Ok(false)
    ensures r.Err? ==> exists k :: i <= k < |data| && IsRoundEnd(data[k]).Err?
                                   && forall l :: i <= l < k ==> IsRoundEnd(data[l]) == Ok(false)
    decreases |data| - i
  {
    if i == |data| then Ok(None)
    else
      var e := IsRoundEnd(data[i]);
      if e.Err? then Err(e.error)
      else if e.value then Ok(Some(i))
      else FirstEnd(data, i + 1)
  }

  /** A sample cut to the evaluation mode: `single_last` keeps the prefix up to the last
      round end, `single_first` up to the first; `multiple…` and `all` keep the sample; any
      other mode, or a single mode without a round end, gives the empty sample. */
  function PrepareOne(data: Sample, mode: string): (r: Result<Sample>)
    ensures mode == "single_last" || mode == "single_first" ==>
              r.Ok? ==> (r.value == [] || (exists j :: 0 <= j < |data| && r.value == data[..j + 1]
                                                        && IsRoundEnd(data[j]) == Ok(true)))
    ensures mode != "single_last" && mode != "single_first" ==>
              r == Ok(if Text.StartsWith(mode, "multiple") || mode == "all" then data else [])
  {
    if mode == "single_last" then
      var j :- LastEnd(data, |data|);
      Ok(if j.Some? then data[..j.value + 1] else [])
    else if mode == "single_first" then
      var j :- FirstEnd(data, 0);
      Ok(if j.Some? then data[..j.value + 1] else [])
    else if Text.StartsWith(mode, "multiple") || mode == "all" then Ok(data)
    else Ok([])
  }

  /** `single_last` keeps the last round of the sample, or nothing when it has none. */
  lemma LastModeKeepsLastRound(data: Sample)
    requires RoundEnds(data).Ok?
    ensures var ends := RoundEnds(data).value;
      PrepareOne(data, "single_last") == Ok(if |ends| == 0 then [] else RoundsOf(data, ends)[|ends| - 1])
  {
    var ends := RoundEnds(data).value;
    var e := LastEnd(data, |data|);
    assert e.Ok?;
    if |ends| == 0 {
      assert e.value.None?;
    } else {
      var j := ends[|ends| - 1];
      assert j in ends;
      assert e.value.Some?;
      var x := e.value.value;
      assert x in ends;
      assert x == j;
    }
  }

  /** `single_first` keeps the first round of the sample, or nothing when it has none. */
  lemma FirstModeKeepsFirstRound(data: Sample)
    requires RoundEnds(data).Ok?
    ensures var ends := RoundEnds(data).value;
      PrepareOne(data, "single_first") == Ok(if |ends| == 0 then [] else RoundsOf(data, ends)[0])
  {
    var ends := RoundEnds(data).value;
    var e := FirstEnd(data, 0);
    assert e.Ok?;
    if |ends| == 0 {
      assert e.value.None?;
    } else {
      var j := ends[0];
      assert j in ends;
      assert e.value.Some?;
      var x := e.value.value;
      assert x in ends;
      assert x == j;
    }
  }

  // ================================================================ tag filters

  /** One tag file with its conditions: `tagged` maps sample ids to tag lists, `conds` maps
      tags to `1` (required) or `-1` (excluded). */
  datatype Scheme = Scheme(tagged: seq<Field>, conds: seq<Field>, mode: string)

  datatype TagConfig = TagConfig(mode: string, schemes: seq<Scheme>)

  predicate Supported(mode: string) {
    mode == "or" || mode == "and"
  }

  predicate IsPlus(v: Json) {
    PyEq(v, JInt(1))
  }

  predicate IsMinus(v: Json) {
    PyEq(v, JInt(-1))
  }

  /** `tag in tags`. */
  function TagIn(tag: string, tags: Json): Result<bool> {
    PyIn(JStr(tag), tags)
  }

  /** The conditions of an `or` scheme over the tags of one sample; every condition is
      evaluated. */
  function AnyCond(conds: seq<Field>, tags: Json): (r: Result<bool>)
    ensures r.Err? <==> exists i :: 0 <= i < |conds| && (IsPlus(conds[i].val) || IsMinus(conds[i].val))
                                    && TagIn(conds[i].key, tags).Err?
  {
    if |conds| == 0 then Ok(false)
    else
      var c := conds[0];
      var plus := if IsPlus(c.val) then TagIn(c.key, tags) else Ok(false);
      var minus := if IsMinus(c.val) then (var t := TagIn(c.key, tags); if t.Err? then t else Ok(!t.value)) else Ok(false);
      var rest := AnyCond(conds[1..], tags);
      assert forall i :: 0 < i < |conds| ==> conds[i] == conds[1..][i - 1];
      if plus.Err? then Err(plus.error)
      else if minus.Err? then Err(minus.error)
      else if rest.Err? then Err(rest.error)
      else Ok(plus.value || minus.value || rest.value)
  }

  /** The conditions of an `and` scheme: no required tag is absent and no excluded tag is
      present. */
  function AllConds(conds: seq<Field>, tags: Json): (r: Result<bool>)
    ensures r.Err? <==> exists i :: 0 <= i < |conds| && (IsPlus(conds[i].val) || IsMinus(conds[i].val))
                                    && TagIn(conds[i].key, tags).Err?
  {
    if |conds| == 0 then Ok(true)
    else
      var c := conds[0];
      var plus := if IsPlus(c.val) then (var t := TagIn(c.key, tags); if t.Err? then t else Ok(!t.value)) else Ok(false);
      var minus := if IsMinus(c.val) then TagIn(c.key, tags) else Ok(false);
      var rest := AllConds(conds[1..], tags);
      assert forall i :: 0 < i < |conds| ==> conds[i] == conds[1..][i - 1];
      if plus.Err? then Err(plus.error)
      else if minus.Err? then Err(minus.error)
      else if rest.Err? then Err(rest.error)
      else Ok(!plus.value && !minus.value && rest.value)
  }

  /** Whether condition `c` holds, read as a statement about the tag list. */
  predicate Present(c: Field, tags: Json)
    requires TagIn(c.key, tags).Ok?
  {
    TagIn(c.key, tags).value
  }

  /** The condition speaks for the sample: a required tag present or an excluded one absent. */
  predicate Admits(c: Field, tags: Json)
    requires TagIn(c.key, tags).Ok?
  {
    (IsPlus(c.val) && Present(c, tags)) || (IsMinus(c.val) && !Present(c, tags))
  }

  /** The condition does not speak against the sample. */
  predicate Respects(c: Field, tags: Json)
    requires TagIn(c.key, tags).Ok?
  {
    (IsPlus(c.val) ==> Present(c, tags)) && (IsMinus(c.val) ==> !Present(c, tags))
  }

  /** An `or` scheme passes iff some required tag is present or some excluded tag is absent. */
  lemma {:induction false} AnyCondMeans(conds: seq<Field>, tags: Json)
    requires forall i :: 0 <= i < |conds| ==> TagIn(conds[i].key, tags).Ok?
    ensures AnyCond(conds, tags) == Ok(exists i :: 0 <= i < |conds| && Admits(conds[i], tags))
  {
    if |conds| > 0 {
      assert forall i :: 0 < i < |conds| ==> conds[i] == conds[1..][i - 1];
      AnyCondMeans(conds[1..], tags);
    }
  }

  /** An `and` scheme passes iff every required tag is present and every excluded tag absent. */
  lemma {:induction false} AllCondsMeans(conds: seq<Field>, tags: Json)
    requires forall i :: 0 <= i < |conds| ==> TagIn(conds[i].key, tags).Ok?
    ensures AllConds(conds, tags) == Ok(forall i :: 0 <= i < |conds| ==> Respects(conds[i], tags))
  {
    if |conds| > 0 {
      assert forall i :: 0 < i < |conds| ==> conds[i] == conds[1..][i - 1];
      AllCondsMeans(conds[1..], tags);
    }
  }

  /** One scheme for one sample id: an id missing from the tag file fails an `or` scheme
      and passes an `and` scheme. */
  function SchemePasses(s: Scheme, id: Json): (r: Result<bool>)
    requires Supported(s.mode)
    ensures PyIn(id, JObj(s.tagged)) == Ok(false) ==> r == Ok(s.mode == "and")
    ensures PyIn(id, JObj(s.tagged)).Err? ==> r.Err?
  {
    var known :- PyIn(id, JObj(s.tagged));
    if !known then Ok(s.mode == "and")
    else
      var tags := GetOrNull(s.tagged, id.s);
      if s.mode == "or" then AnyCond(s.conds, tags) else AllConds(s.conds, tags)
  }

  /** The outer `or`: the first passing scheme accepts; schemes in other modes are skipped. */
  function OuterOr(schemes: seq<Scheme>, id: Json): (r: Result<bool>)
    ensures r == Ok(true) ==> exists i :: 0 <= i < |schemes| && Supported(schemes[i].mode)
                                          && SchemePasses(schemes[i], id) == Ok(true)
    ensures r == Ok(false) ==> forall i :: 0 <= i < |schemes| && Supported(schemes[i].mode) ==>
                                          SchemePasses(schemes[i], id) == Ok(false)
  {
    if |schemes| == 0 then Ok(false)
    else
      assert forall i :: 0 < i < |schemes| ==> schemes[i] == schemes[1..][i - 1];
      if !Supported(schemes[0].mode) then OuterOr(schemes[1..], id)
      else
        var p :- SchemePasses(schemes[0], id);
        if p then Ok(true) else OuterOr(schemes[1..], id)
  }

  /** The outer `and`: the first failing scheme rejects; schemes in other modes are skipped. */
  function OuterAnd(schemes: seq<Scheme>, id: Json): (r: Result<bool>)
    ensures r == Ok(false) ==> exists i :: 0 <= i < |schemes| && Supported(schemes[i].mode)
                                           && SchemePasses(schemes[i], id) == Ok(false)
    ensures r == Ok(true) ==> forall i :: 0 <= i < |schemes| && Supported(schemes[i].mode) ==>
                                          SchemePasses(schemes[i], id) == Ok(true)
  {
    if |schemes| == 0 then Ok(true)
    else
      assert forall i :: 0 < i < |schemes| ==> schemes[i] == schemes[1..][i - 1];
      if !Supported(schemes[0].mode) then OuterAnd(schemes[1..], id)
      else
        var p :- SchemePasses(schemes[0], id);
        if !p then Ok(false) else OuterAnd(schemes[1..], id)
  }

  /** The sample filter: without a configuration every sample passes; otherwise a sample
      whose first message is not its id fails, and an unsupported outer mode passes the
      rest. An empty sample raises `IndexError`. */
  function TagFilter(config: Option<TagConfig>, data: Sample): (r: Result<bool>)
    ensures config.None? ==> r == Ok(true)
    ensures config.Some? && |data| == 0 ==> r == Err(IndexError)
    ensures config.Some? && |data| > 0 && data[0].role != "id" ==> r == Ok(false)
    ensures config.Some? && |data| > 0 && data[0].role == "id" && !Supported(config.value.mode) ==> r == Ok(true)
  {
    match config
    case None => Ok(true)
    case Some(c) =>
      if |data| == 0 then Err(IndexError)
      else if data[0].role != "id" then Ok(false)
      else if c.mode == "or" then OuterOr(c.schemes, data[0].content)
      else if c.mode == "and" then OuterAnd(c.schemes, data[0].content)
      else Ok(true)
  }

  /** No scheme under an outer `or` rejects every id sample; under an outer `and` it accepts
      every one. */
  lemma NoSchemes(data: Sample)
    requires |data| > 0 && data[0].role == "id"
    ensures TagFilter(Some(TagConfig("or", [])), data) == Ok(false)
    ensures TagFilter(Some(TagConfig("and", [])), data) == Ok(true)
  {
  }

  /** The samples of a file that pass the filter, in order. */
  function FilterSamples(samples: seq<Sample>, config: Option<TagConfig>): (r: Result<seq<Sample>>)
    ensures r.Ok? ==> |r.value| <= |samples|
    ensures r.Ok? ==> forall d :: d in r.value ==> d in samples && TagFilter(config, d) == Ok(true)
    ensures r.Ok? ==> forall d :: d in samples && TagFilter(config, d) == Ok(true) ==> d in r.value
  {
    if |samples| == 0 then Ok([])
    else
      var keep :- TagFilter(config, samples[0]);
      var rest :- FilterSamples(samples[1..], config);
      assert forall d :: d in samples ==> d == samples[0] || d in samples[1..];
      Ok(if keep then [samples[0]] + rest else rest)
  }

  // ================================================================ datasets

  datatype Dataset = Dataset(name: string, samples: seq<Sample>)

  /** Every sample cut to the mode, the empty ones dropped. */
  function CutSamples(samples: seq<Sample>, mode: string): (r: Result<seq<Sample>>)
    ensures r.Ok? ==> |r.value| <= |samples| && forall i :: 0 <= i < |r.value| ==> r.value[i] != []
    ensures r.Ok? ==> forall i :: 0 <= i < |samples| ==> PrepareOne(samples[i], mode).Ok?
    ensures r.Ok? ==> forall d :: d in r.value ==> exists i :: 0 <= i < |samples| && PrepareOne(samples[i], mode) == Ok(d)
  {
    if |samples| == 0 then Ok([])
    else
      var d :- PrepareOne(samples[0], mode);
      var rest :- CutSamples(samples[1..], mode);
      assert forall i :: 0 < i < |samples| ==> samples[i] == samples[1..][i - 1];
      Ok(if |d| > 0 then [d] + rest else rest)
  }

  /** A sample whose cut is not empty is kept. */
  lemma {:induction false} CutKeeps(samples: seq<Sample>, mode: string, i: nat)
    requires CutSamples(samples, mode).Ok? && i < |samples| && PrepareOne(samples[i], mode).value != []
    ensures PrepareOne(samples[i], mode).value in CutSamples(samples, mode).value
  {
    if i > 0 {
      assert samples[1..][i - 1] == samples[i];
      CutKeeps(samples[1..], mode, i - 1);
    }
  }

  /** No dataset requested raises `ValueError`; otherwise every dataset is cut, and a dataset
      left without samples is removed. */
  function PrepareDatasets(requested: seq<string>, all: seq<Dataset>, mode: string): (r: Result<seq<Dataset>>)
    ensures |requested| == 0 ==> r == Err(ValueError)
    ensures r.Ok? ==> |r.value| <= |all| && forall i :: 0 <= i < |r.value| ==> |r.value[i].samples| > 0
    ensures r.Ok? ==> r == CutAll(all, mode)
  {
    if |requested| == 0 then Err(ValueError) else CutAll(all, mode)
  }

  function CutAll(all: seq<Dataset>, mode: string): (r: Result<seq<Dataset>>)
    ensures r.Ok? ==> |r.value| <= |all| && forall i :: 0 <= i < |r.value| ==> |r.value[i].samples| > 0
    ensures r.Ok? <==> forall j :: 0 <= j < |all| ==> CutSamples(all[j].samples, mode).Ok?
  {
    if |all| == 0 then Ok([])
    else
      var cut :- CutSamples(all[0].samples, mode);
      var rest :- CutAll(all[1..], mode);
      Ok(if |cut| > 0 then [Dataset(all[0].name, cut)] + rest else rest)
  }

  /** `d` is the cut of the `j`-th dataset, under the same name. */
  predicate CutOf(all: seq<Dataset>, mode: string, d: Dataset, j: int) {
    0 <= j < |all| && all[j].name == d.name && CutSamples(all[j].samples, mode) == Ok(d.samples)
  }

  /** One step of the cut loop: the first dataset's cut, if any, then the rest's. */
  lemma CutAllStep(all: seq<Dataset>, mode: string)
    requires CutAll(all, mode).Ok? && |all| > 0
    ensures CutSamples(all[0].samples, mode).Ok? && CutAll(all[1..], mode).Ok?
    ensures var cut := CutSamples(all[0].samples, mode).value;
      CutAll(all, mode).value == (if |cut| > 0 then [Dataset(all[0].name, cut)] else []) + CutAll(all[1..], mode).value
  {
  }

  /** Every dataset left is the cut of a dataset of the same name. */
  lemma {:induction false} CutAllFrom(all: seq<Dataset>, mode: string, i: nat)
    requires CutAll(all, mode).Ok? && i < |CutAll(all, mode).value|
    ensures exists j :: CutOf(all, mode, CutAll(all, mode).value[i], j)
  {
    CutAllStep(all, mode);
    var cut := CutSamples(all[0].samples, mode).value;
    var d := CutAll(all, mode).value[i];
    if |cut| > 0 && i == 0 {
      assert CutOf(all, mode, d, 0);
    } else {
      var i' := if |cut| > 0 then i - 1 else i;
      assert d == CutAll(all[1..], mode).value[i'];
      CutAllFrom(all[1..], mode, i');
      var j :| CutOf(all[1..], mode, d, j);
      assert all[1..][j] == all[j + 1];
      assert CutOf(all, mode, d, j + 1);
    }
  }

  /** A dataset is kept iff some sample of it survives the cut. */
  lemma {:induction false} CutAllKeeps(all: seq<Dataset>, mode: string, j: nat)
    requires CutAll(all, mode).Ok? && j < |all|
    ensures CutSamples(all[j].samples, mode).value != [] <==>
              Dataset(all[j].name, CutSamples(all[j].samples, mode).value) in CutAll(all, mode).value
  {
    if j > 0 {
      assert all[1..][j - 1] == all[j];
      CutAllKeeps(all[1..], mode, j - 1);
    } else {
      CutAllNonEmpty(all[1..], mode);
    }
  }

  lemma CutAllNonEmpty(all: seq<Dataset>, mode: string)
    requires CutAll(all, mode).Ok?
    ensures forall d :: d in CutAll(all, mode).value ==> d.samples != []
  {
  }

  // ================================================================ averaging

  /** One dataset's result: its name, `Size` and the other metric values. */
  datatype ResultRow = ResultRow(name: string, size: nat, values: map<string, real>)

  /** The averaged entry: the name prefixes, the total size and the averaged metrics. */
  datatype Average = Average(names: set<string>, size: nat, values: map<string, real>)

  function TotalSize(rows: seq<ResultRow>): nat {
    if |rows| == 0 then 0 else rows[0].size + TotalSize(rows[1..])
  }

  /** Every metric key of any row, `Size` excluded. */
  function AllMetrics(rows: seq<ResultRow>): (ms: set<string>)
    ensures forall m :: m in ms <==> m != "Size" && exists i :: 0 <= i < |rows| && m in rows[i].values
  {
    if |rows| == 0 then {}
    else
      assert forall i :: 0 < i < |rows| ==> rows[i] == rows[1..][i - 1];
      (rows[0].values.Keys - {"Size"}) + AllMetrics(rows[1..])
  }

  /** Σ size · value of a metric every row has. */
  function WeightedSum(rows: seq<ResultRow>, m: string): real
    requires forall i :: 0 <= i < |rows| ==> m in rows[i].values
  {
    if |rows| == 0 then 0.0
    else rows[0].size as real * rows[0].values[m] + WeightedSum(rows[1..], m)
  }

  /** Every row has every metric. */
  predicate Complete(rows: seq<ResultRow>, ms: set<string>) {
    forall m, i :: m in ms && 0 <= i < |rows| ==> m in rows[i].values
  }

  /** The size-weighted mean of one metric. */
  function Mean(rows: seq<ResultRow>, m: string): real
    requires forall i :: 0 <= i < |rows| ==> m in rows[i].values
    requires TotalSize(rows) > 0
  {
    WeightedSum(rows, m) / TotalSize(rows) as real
  }

  /** The size-weighted average of every metric. A metric missing from some row raises
      `KeyError` and a total size of zero `ZeroDivisionError` (when both apply, which is
      raised depends on the set's iteration order; the model raises `KeyError`). */
  function AverageResult(rows: seq<ResultRow>): (r: Result<Average>)
    ensures r.Ok? <==> Complete(rows, AllMetrics(rows)) && (TotalSize(rows) > 0 || AllMetrics(rows) == {})
    ensures r.Ok? ==> r.value.size == TotalSize(rows) && r.value.values.Keys == AllMetrics(rows)
    ensures r.Ok? ==> forall m :: m in r.value.values ==> TotalSize(rows) > 0 && r.value.values[m] == Mean(rows, m)
    ensures r.Ok? ==> forall i :: 0 <= i < |rows| ==> Text.Split(rows[i].name, '_')[0] in r.value.names
  {
    var ms := AllMetrics(rows);
    var names := set i | 0 <= i < |rows| :: Text.Split(rows[i].name, '_')[0];
    if !Complete(rows, ms) then Err(KeyError)
    else if ms != {} && TotalSize(rows) == 0 then Err(ZeroDivisionError)
    else Ok(Average(names, TotalSize(rows), map m | m in ms :: Mean(rows, m)))
  }

  /** One step of the weighted sum: adding a row of weight `s` and value `v` within the
      bounds keeps the sum within the bounds scaled by the total weight. */
  lemma BoundStep(lo: real, hi: real, s: real, t: real, v: real, w: real)
    requires 0.0 <= s && lo <= v <= hi && lo * t <= w <= hi * t
    ensures lo * (s + t) <= s * v + w <= hi * (s + t)
  {
    assert s * lo <= s * v <= s * hi;
  }

  /** The weighted sum lies between the smallest and the largest value, scaled by the size. */
  lemma {:induction false} WeightedSumBounds(rows: seq<ResultRow>, m: string, lo: real, hi: real)
    requires forall i :: 0 <= i < |rows| ==> m in rows[i].values && lo <= rows[i].values[m] <= hi
    ensures lo * TotalSize(rows) as real <= WeightedSum(rows, m) <= hi * TotalSize(rows) as real
  {
    if |rows| > 0 {
      assert forall i :: 0 < i < |rows| ==> rows[i] == rows[1..][i - 1];
      WeightedSumBounds(rows[1..], m, lo, hi);
      var s := rows[0].size as real;
      var t := TotalSize(rows[1..]) as real;
      var v := rows[0].values[m];
      assert TotalSize(rows) as real == s + t;
      assert WeightedSum(rows, m) == s * v + WeightedSum(rows[1..], m);
      BoundStep(lo, hi, s, t, v, WeightedSum(rows[1..], m));
    }
  }

  lemma DivBounds(lo: real, hi: real, x: real, t: real)
    requires t > 0.0 && lo * t <= x <= hi * t
    ensures lo <= x / t <= hi
  {
  }

  /** A mean lies between the smallest and the largest value it averages; in particular
      datasets that agree on a value average to it. */
  lemma MeanWithin(rows: seq<ResultRow>, m: string, lo: real, hi: real)
    requires TotalSize(rows) > 0
    requires forall i :: 0 <= i < |rows| ==> m in rows[i].values && lo <= rows[i].values[m] <= hi
    ensures lo <= Mean(rows, m) <= hi
  {
    WeightedSumBounds(rows, m, lo, hi);
    DivBounds(lo, hi, WeightedSum(rows, m), TotalSize(rows) as real);
  }
}

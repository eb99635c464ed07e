/** `metrics_for_single_round_tool_call` and `metrics_for_bfcl`: the four metrics of one
    round, built from the pairing of golden and predicted calls of each tool name. */
module Scoring {
  import opened Wrappers
  import opened JsonValues
  import opened Assignment
  import opened Comparators
  import opened Metrics

  // ================================================================ count matrix

  /** One row of the matrix: the golden call `gold` against every predicted call. */
  function CountRow(cmp: Comparator, gold: Json, outs: seq<Json>): (r: Result<seq<Counts>>)
    ensures r.Ok? <==> forall j :: 0 <= j < |outs| ==> Compare(cmp, gold, outs[j]).Ok?
    ensures r.Ok? ==> |r.value| == |outs| && forall j :: 0 <= j < |outs| ==> r.value[j] == Compare(cmp, gold, outs[j]).value
  {
    if |outs| == 0 then Ok([])
    else
      assert forall j :: 0 < j < |outs| ==> outs[j] == outs[1..][j - 1];
      var c :- Compare(cmp, gold, outs[0]);
      var rest :- CountRow(cmp, gold, outs[1..]);
      Ok([c] + rest)
  }

  /** The matrix of comparator results, computed row by row; the first comparison that
      raises aborts the round. */
  function CountMatrix(cmp: Comparator, golds: seq<Json>, outs: seq<Json>): Result<seq<seq<Counts>>> {
    MapAll(RowOf(cmp, outs), golds)
  }

  /** The row computation for the predicted calls `outs`. */
  function RowOf(cmp: Comparator, outs: seq<Json>): Json -> Result<seq<Counts>> {
    gold => CountRow(cmp, gold, outs)
  }

  /** The matrix exists iff every comparison succeeds, and then holds the comparator
      result of golden call `i` against predicted call `j` at `[i][j]`. */
  lemma CountMatrixSpec(cmp: Comparator, golds: seq<Json>, outs: seq<Json>)
    ensures var r := CountMatrix(cmp, golds, outs);
      && (r.Ok? <==> forall i, j :: 0 <= i < |golds| && 0 <= j < |outs| ==> Compare(cmp, golds[i], outs[j]).Ok?)
      && (r.Ok? ==> |r.value| == |golds| && forall i :: 0 <= i < |golds| ==>
            |r.value[i]| == |outs| && forall j :: 0 <= j < |outs| ==> r.value[i][j] == Compare(cmp, golds[i], outs[j]).value)
  {
    var f := RowOf(cmp, outs);
    MapAllOk(f, golds);
    MapAllLength(f, golds);
    assert forall i :: 0 <= i < |golds| ==> f(golds[i]) == CountRow(cmp, golds[i], outs);
    var r := CountMatrix(cmp, golds, outs);
    if r.Ok? {
      forall i | 0 <= i < |golds|
        ensures r.value[i] == CountRow(cmp, golds[i], outs).value
      {
        MapAllAt(f, golds, i);
      }
    }
  }

  /** The weight the assignment maximises: a cost of `-(1000 * exact + matched)`. */
  function PairWeight(c: Counts): nat {
    1000 * (if c.exact then 1 else 0) + c.matched
  }

  function Weights(M: seq<seq<Counts>>): (w: seq<seq<nat>>)
    ensures |w| == |M| && forall i :: 0 <= i < |M| ==> |w[i]| == |M[i]|
    ensures forall i, j :: 0 <= i < |M| && 0 <= j < |M[i]| ==> w[i][j] == PairWeight(M[i][j])
  {
    seq(|M|, i requires 0 <= i < |M| => seq(|M[i]|, j requires 0 <= j < |M[i]| => PairWeight(M[i][j])))
  }

  // ================================================================ sums over the pairs

  datatype Sums = Sums(exact: nat, matched: nat, total: nat)

  /** The comparator results summed over the pairs of `m` (whose first entry is row `row`). */
  function PairSums(M: seq<seq<Counts>>, row: nat, m: Pairing): Sums
    decreases |m|
  {
    if |m| == 0 then Sums(0, 0, 0)
    else
      var rest := PairSums(M, row + 1, m[1..]);
      if m[0].Some? && row < |M| && m[0].value < |M[row]| then
        var c := M[row][m[0].value];
        Sums(rest.exact + (if c.exact then 1 else 0), rest.matched + c.matched, rest.total + c.total)
      else rest
  }

  predicate AllCoherent(M: seq<seq<Counts>>) {
    forall i, j :: 0 <= i < |M| && 0 <= j < |M[i]| ==> Coherent(M[i][j])
  }

  /** The weight of a pairing is 1000 per exact pair plus the matched parameters; at most
      every paired row is exact, and at most every compared parameter matches. */
  lemma {:induction false} PairSumsSpec(M: seq<seq<Counts>>, row: nat, m: Pairing)
    requires AllCoherent(M)
    ensures Weight(Weights(M), row, m) == 1000 * PairSums(M, row, m).exact + PairSums(M, row, m).matched
    ensures PairSums(M, row, m).exact <= Assigned(m)
    ensures PairSums(M, row, m).matched <= PairSums(M, row, m).total
    decreases |m|
  {
    if |m| > 0 {
      PairSumsSpec(M, row + 1, m[1..]);
    }
  }

  // ================================================================ tallies per tool name

  /** Exact pairs, matched and compared parameters over the pairs, tool-name matches, and
      golden calls. */
  datatype Tally = Tally(exact: nat, matched: nat, total: nat, nameMatches: nat, goldCalls: nat)

  predicate TallyBounds(t: Tally) {
    t.exact <= t.nameMatches <= t.goldCalls && t.matched <= t.total
  }

  function Plus(a: Tally, b: Tally): Tally {
    Tally(a.exact + b.exact, a.matched + b.matched, a.total + b.total, a.nameMatches + b.nameMatches,
          a.goldCalls + b.goldCalls)
  }

  /** The golden group `g` against the predicted groups: without a predicted group of the
      same name nothing is paired; otherwise min(g, p) name matches are counted and the
      comparator results are summed over a heaviest pairing. */
  function ScoreGroup(g: Group, od: seq<Group>, cmp: Comparator): (r: Result<Tally>)
    ensures r.Ok? ==> TallyBounds(r.value) && r.value.goldCalls == |g.args|
    ensures r.Ok? && HasGroup(od, g.name) ==> r.value.nameMatches == Min(|g.args|, |ArgsOf(od, g.name)|)
    ensures !HasGroup(od, g.name) ==> r == Ok(Tally(0, 0, 0, 0, |g.args|))
  {
    if !HasGroup(od, g.name) then Ok(Tally(0, 0, 0, 0, |g.args|))
    else
      var outs := ArgsOf(od, g.name);
      CountMatrixSpec(cmp, g.args, outs);
      var M :- CountMatrix(cmp, g.args, outs);
      var m := BestPairing(Weights(M), |g.args|, |outs|);
      PairSumsSpec(M, 0, m);
      var s := PairSums(M, 0, m);
      Ok(Tally(s.exact, s.matched, s.total, Min(|g.args|, |outs|), |g.args|))
  }

  /** The loop over the golden groups, in order. */
  function ScoreGroups(gd: seq<Group>, od: seq<Group>, cmp: Comparator): (r: Result<Tally>)
    ensures r.Ok? ==> TallyBounds(r.value) && r.value.goldCalls == TotalArgs(gd)
  {
    if |gd| == 0 then Ok(Tally(0, 0, 0, 0, 0))
    else
      var here :- ScoreGroup(gd[0], od, cmp);
      var rest :- ScoreGroups(gd[1..], od, cmp);
      Ok(Plus(here, rest))
  }

  // ================================================================ round metrics

  datatype RoundMetrics = RoundMetrics(allTools: real, perTool: real, toolAcc: real, paramAcc: real)

  predicate InUnit(x: real) {
    0.0 <= x <= 1.0
  }

  lemma Ratio(a: nat, b: nat)
    requires a <= b && b > 0
    ensures InUnit(a as real / b as real)
    ensures a as real / b as real == 1.0 <==> a == b
  {
    var q, x, y := a as real / b as real, a as real, b as real;
    assert q * y == x;
    if a == b {
      DivSelf(y);
    }
  }

  lemma DivSelf(y: real)
    requires y > 0.0
    ensures y / y == 1.0
  {
  }

  /** The metrics from the converted calls; `goldLen` is `len(golden_answer)`. */
  function ScoreCalls(goldLen: nat, goldCalls: seq<Call>, outCalls: seq<Call>, cmp: Comparator): (r: Result<RoundMetrics>)
    requires |goldCalls| <= goldLen
    ensures r.Ok? ==> InUnit(r.value.allTools) && InUnit(r.value.perTool) && InUnit(r.value.toolAcc) && InUnit(r.value.paramAcc)
    ensures r.Ok? ==> (r.value.allTools == 1.0 <==> r.value.perTool == 1.0)
                      && (r.value.allTools == 0.0 || r.value.allTools == 1.0)
    ensures |goldCalls| == 0 ==> r == Ok(var v := if |outCalls| == 0 then 1.0 else 0.0; RoundMetrics(v, v, v, v))
  {
    var gd := Grouped(goldCalls);
    var od := Grouped(outCalls);
    GroupedSpec(goldCalls);
    GroupedSpec(outCalls);
    if |gd| == 0 then
      assert |outCalls| == 0 <==> |od| == 0 by {
        if |outCalls| > 0 {
          assert HasGroup(od, outCalls[0].name);
        }
      }
      var v := if |od| == 0 then 1.0 else 0.0;
      Ok(RoundMetrics(v, v, v, v))
    else
      var t :- ScoreGroups(gd, od, cmp);
      Ratio(t.exact, goldLen);
      Ratio(t.nameMatches, t.goldCalls);
      var perTool := t.exact as real / goldLen as real;
      var toolAcc := t.nameMatches as real / t.goldCalls as real;
      var paramAcc := if t.total > 0 then (Ratio(t.matched, t.total); t.matched as real / t.total as real) else 0.0;
      Ok(RoundMetrics(if perTool == 1.0 then 1.0 else 0.0, perTool, toolAcc, paramAcc))
  }

  /** `metrics_for_single_round_tool_call(golden_answer, tool_calls, is_strict, cmp)`, or
      `metrics_for_bfcl` with `cmp == Bfcl`. Iterating a non-iterable answer raises
      `TypeError`. */
  function RoundScore(golden: Json, toolCalls: Json, strict: bool, cmp: Comparator): (r: Result<RoundMetrics>)
    ensures r.Ok? ==> InUnit(r.value.allTools) && InUnit(r.value.perTool) && InUnit(r.value.toolAcc) && InUnit(r.value.paramAcc)
    ensures r.Ok? ==> (r.value.allTools == 1.0 <==> r.value.perTool == 1.0)
                      && (r.value.allTools == 0.0 || r.value.allTools == 1.0)
    ensures Items(golden).Err? ==> r == Err(TypeError)
    ensures r.Ok? ==> Items(golden).Ok? && WellFormedCalls(Items(golden).value, strict).Ok?
                      && Items(toolCalls).Ok? && WellFormedCalls(Items(toolCalls).value, strict).Ok?
  {
    var goldItems :- Items(golden);
    var goldCalls :- WellFormedCalls(goldItems, strict);
    var outItems :- Items(toolCalls);
    var outCalls :- WellFormedCalls(outItems, strict);
    WellFormedCallsSpec(goldItems, strict);
    ScoreCalls(|goldItems|, goldCalls, outCalls, cmp)
  }

  // ================================================================ properties

  lemma {:induction false} ScoreGroupsLocal(gd: seq<Group>, od1: seq<Group>, od2: seq<Group>, cmp: Comparator)
    requires forall k :: 0 <= k < |gd| ==> (HasGroup(od1, gd[k].name) <==> HasGroup(od2, gd[k].name))
    requires forall k :: 0 <= k < |gd| ==> ArgsOf(od1, gd[k].name) == ArgsOf(od2, gd[k].name)
    ensures ScoreGroups(gd, od1, cmp) == ScoreGroups(gd, od2, cmp)
  {
    if |gd| > 0 {
      assert forall k :: 0 < k < |gd| ==> gd[k] == gd[1..][k - 1];
      ScoreGroupsLocal(gd[1..], od1, od2, cmp);
    }
  }

  lemma GroupsAgree(out1: seq<Call>, out2: seq<Call>, n: string)
    requires Named(out1, n) == Named(out2, n)
    ensures HasGroup(Grouped(out1), n) <==> HasGroup(Grouped(out2), n)
    ensures ArgsOf(Grouped(out1), n) == ArgsOf(Grouped(out2), n)
  {
    GroupedSpec(out1);
    GroupedSpec(out2);
    NamedEmpty(out1, n);
    NamedEmpty(out2, n);
  }

  /** Tool names that only the prediction uses never affect the metrics: two predictions
      with the same calls for every golden tool name score the same. */
  lemma PredictedOnlyNamesIgnored(goldLen: nat, goldCalls: seq<Call>, out1: seq<Call>, out2: seq<Call>, cmp: Comparator)
    requires |goldCalls| <= goldLen && |goldCalls| > 0
    requires forall i :: 0 <= i < |goldCalls| ==> Named(out1, goldCalls[i].name) == Named(out2, goldCalls[i].name)
    ensures ScoreCalls(goldLen, goldCalls, out1, cmp) == ScoreCalls(goldLen, goldCalls, out2, cmp)
  {
    var gd := Grouped(goldCalls);
    GroupedSpec(goldCalls);
    forall k | 0 <= k < |gd|
      ensures (HasGroup(Grouped(out1), gd[k].name) <==> HasGroup(Grouped(out2), gd[k].name))
      ensures ArgsOf(Grouped(out1), gd[k].name) == ArgsOf(Grouped(out2), gd[k].name)
    {
      assert HasGroup(gd, gd[k].name);
      var i :| 0 <= i < |goldCalls| && goldCalls[i].name == gd[k].name;
      GroupsAgree(out1, out2, goldCalls[i].name);
    }
    ScoreGroupsLocal(gd, Grouped(out1), Grouped(out2), cmp);
    assert HasGroup(gd, goldCalls[0].name);
  }

  lemma {:induction false} ScoreGroupsFull(gd: seq<Group>, od: seq<Group>, cmp: Comparator)
    requires ScoreGroups(gd, od, cmp).Ok? && ScoreGroups(gd, od, cmp).value.nameMatches == TotalArgs(gd)
    ensures forall k :: 0 <= k < |gd| && |gd[k].args| > 0 ==> HasGroup(od, gd[k].name) && |ArgsOf(od, gd[k].name)| >= |gd[k].args|
  {
    if |gd| > 0 {
      ScoreGroupsStep(gd, od, cmp);
      ScoreGroupsFull(gd[1..], od, cmp);
      if |gd[0].args| > 0 {
        FullGroup(gd[0], od, cmp);
      }
      forall k | 0 < k < |gd| && |gd[k].args| > 0
        ensures HasGroup(od, gd[k].name) && |ArgsOf(od, gd[k].name)| >= |gd[k].args|
      {
        assert gd[k] == gd[1..][k - 1];
      }
    }
  }

  /** One step of the loop over the golden groups: a full count splits into full counts. */
  lemma ScoreGroupsStep(gd: seq<Group>, od: seq<Group>, cmp: Comparator)
    requires |gd| > 0 && ScoreGroups(gd, od, cmp).Ok? && ScoreGroups(gd, od, cmp).value.nameMatches == TotalArgs(gd)
    ensures ScoreGroup(gd[0], od, cmp).Ok? && ScoreGroup(gd[0], od, cmp).value.nameMatches == |gd[0].args|
    ensures ScoreGroups(gd[1..], od, cmp).Ok? && ScoreGroups(gd[1..], od, cmp).value.nameMatches == TotalArgs(gd[1..])
  {
    var here := ScoreGroup(gd[0], od, cmp).value;
    var rest := ScoreGroups(gd[1..], od, cmp).value;
    assert ScoreGroups(gd, od, cmp).value == Plus(here, rest);
  }

  /** A golden group whose calls all found a name match has enough predicted calls. */
  lemma FullGroup(g: Group, od: seq<Group>, cmp: Comparator)
    requires |g.args| > 0 && ScoreGroup(g, od, cmp).Ok? && ScoreGroup(g, od, cmp).value.nameMatches == |g.args|
    ensures HasGroup(od, g.name) && |ArgsOf(od, g.name)| >= |g.args|
  {
  }

  /** With at least one well-formed golden call, AllTools is 1 exactly when every golden
      entry is a well-formed call and every golden call is in an exact pair; it then takes,
      for every golden tool name, at least as many predicted calls as golden ones. */
  lemma AllToolsMeans(goldLen: nat, goldCalls: seq<Call>, outCalls: seq<Call>, cmp: Comparator)
    requires |goldCalls| <= goldLen && |goldCalls| > 0
    requires ScoreCalls(goldLen, goldCalls, outCalls, cmp).Ok?
    ensures ScoreGroups(Grouped(goldCalls), Grouped(outCalls), cmp).Ok?
    ensures ScoreCalls(goldLen, goldCalls, outCalls, cmp).value.allTools == 1.0
        <==> goldLen == |goldCalls| && ScoreGroups(Grouped(goldCalls), Grouped(outCalls), cmp).value.exact == |goldCalls|
    ensures ScoreCalls(goldLen, goldCalls, outCalls, cmp).value.allTools == 1.0
        ==> forall i :: 0 <= i < |goldCalls| ==> |Named(outCalls, goldCalls[i].name)| >= |Named(goldCalls, goldCalls[i].name)|
  {
    var gd := Grouped(goldCalls);
    var od := Grouped(outCalls);
    GroupedSpec(goldCalls);
    GroupedSpec(outCalls);
    assert HasGroup(gd, goldCalls[0].name);
    var t := ScoreGroups(gd, od, cmp).value;
    Ratio(t.exact, goldLen);
    if ScoreCalls(goldLen, goldCalls, outCalls, cmp).value.allTools == 1.0 {
      ScoreGroupsFull(gd, od, cmp);
      forall i | 0 <= i < |goldCalls|
        ensures |Named(outCalls, goldCalls[i].name)| >= |Named(goldCalls, goldCalls[i].name)|
      {
        var n := goldCalls[i].name;
        assert HasGroup(gd, n);
        var k := GroupIndex(gd, n);
        ArgsOfOwnName(gd, k);
        NamedEmpty(goldCalls, n);
        NamedEmpty(outCalls, n);
      }
    }
  }

  /** Every golden entry must be a well-formed call for AllTools to be 1, unless the
      golden answer has no well-formed call at all. */
  lemma AllToolsNeedsWellFormedGold(golden: Json, toolCalls: Json, strict: bool, cmp: Comparator)
    requires RoundScore(golden, toolCalls, strict, cmp).Ok? && RoundScore(golden, toolCalls, strict, cmp).value.allTools == 1.0
    requires |WellFormedCalls(Items(golden).value, strict).value| > 0
    ensures forall i :: 0 <= i < |Items(golden).value| ==> CallShaped(Items(golden).value[i])
  {
    var items := Items(golden).value;
    var calls := WellFormedCalls(items, strict).value;
    WellFormedCallsSpec(items, strict);
    AllToolsMeans(|items|, calls, WellFormedCalls(Items(toolCalls).value, strict).value, cmp);
  }

  // ---------------------------------------------------------------- a permuted prediction

  /** The sum of `t[row..]`. */
  function SumFrom(t: seq<nat>, row: nat): nat
    decreases |t| - row
  {
    if row >= |t| then 0 else t[row] + SumFrom(t, row + 1)
  }

  /** A square matrix of coherent counts whose row `i` compares `t[i]` parameters in every
      cell. */
  predicate RowTotals(M: seq<seq<Counts>>, t: seq<nat>) {
    && |M| == |t|
    && (forall i :: 0 <= i < |t| ==> |M[i]| == |t|)
    && (forall i, j :: 0 <= i < |t| && 0 <= j < |t| ==> M[i][j].total == t[i] && Coherent(M[i][j]))
  }

  /** Such a matrix where the pairing `m` pairs every row with an exact cell. */
  predicate ExactUnder(M: seq<seq<Counts>>, t: seq<nat>, m: Pairing) {
    && RowTotals(M, t)
    && |m| == |t|
    && forall i :: 0 <= i < |t| ==> m[i].Some? && m[i].value < |t| && M[i][m[i].value] == Counts(t[i], t[i], true)
  }

  /** A dict with distinct keys matches itself on every parameter. */
  lemma SelfCompare(x: Json)
    requires x.JObj? && DistinctKeys(x.fields)
    ensures CompareSimple(x, x) == Ok(Counts(|x.fields|, |x.fields|, true))
  {
    forall i | 0 <= i < |x.fields|
      ensures GetOrNull(x.fields, x.fields[i].key) == x.fields[i].val
    {
      FirstKeyIndexUnique(x.fields, x.fields[i].key, i);
    }
  }

  lemma {:induction false} ExactSums(M: seq<seq<Counts>>, t: seq<nat>, m: Pairing, row: nat)
    requires ExactUnder(M, t, m) && row <= |t|
    ensures PairSums(M, row, m[row..]) == Sums(|t| - row, SumFrom(t, row), SumFrom(t, row))
    decreases |t| - row
  {
    if row < |t| {
      assert m[row..][1..] == m[row + 1..];
      ExactSums(M, t, m, row + 1);
    }
  }

  lemma {:induction false} PairTotalBound(M: seq<seq<Counts>>, t: seq<nat>, row: nat, m: Pairing)
    requires RowTotals(M, t) && row + |m| == |t|
    ensures PairSums(M, row, m).total <= SumFrom(t, row)
    decreases |m|
  {
    if |m| > 0 {
      PairTotalBound(M, t, row + 1, m[1..]);
    }
  }

  /** When some pairing makes every row exact, so does the heaviest pairing: that pairing
      weighs 1000 per row plus every parameter, and no pairing matches more parameters
      than there are. */
  lemma ExactGroup(M: seq<seq<Counts>>, t: seq<nat>, m: Pairing)
    requires ExactUnder(M, t, m) && IsPairing(m, |t|, |t|)
    ensures PairSums(M, 0, BestPairing(Weights(M), |t|, |t|)).exact == |t|
  {
    var n := |t|;
    var best := BestPairing(Weights(M), n, n);
    BestPairingIsOptimal(Weights(M), n, n, m);
    assert AllCoherent(M);
    PairSumsSpec(M, 0, m);
    PairSumsSpec(M, 0, best);
    ExactSums(M, t, m, 0);
    assert m[0..] == m;
    PairTotalBound(M, t, 0, best);
  }

  /** A golden group scored against predicted calls of its name that hold the same
      arguments, in any order, pairs every golden call exactly. */
  lemma PermutedGroup(g: Group, od: seq<Group>)
    requires HasGroup(od, g.name) && multiset(ArgsOf(od, g.name)) == multiset(g.args)
    requires forall i :: 0 <= i < |g.args| && g.args[i].JObj? ==> DistinctKeys(g.args[i].fields)
    requires ScoreGroup(g, od, Simple).Ok?
    ensures ScoreGroup(g, od, Simple).value.exact == |g.args|
  {
    var outs := ArgsOf(od, g.name);
    assert |outs| == |multiset(outs)| == |multiset(g.args)| == |g.args|;
    var m := PermutationPairing(g.args, outs);
    CountMatrixSpec(Simple, g.args, outs);
    var M := CountMatrix(Simple, g.args, outs).value;
    forall i | 0 <= i < |g.args|
      ensures g.args[i].JObj? && M[i][m[i].value] == Counts(|g.args[i].fields|, |g.args[i].fields|, true)
    {
      assert outs[m[i].value] == g.args[i];
      assert Compare(Simple, g.args[i], g.args[i]).Ok?;
      SelfCompare(g.args[i]);
    }
    var tk := seq(|g.args|, i requires 0 <= i < |g.args| => |g.args[i].fields|);
    assert ExactUnder(M, tk, m);
    ExactGroup(M, tk, m);
  }

  lemma {:induction false} PermutedGroups(gd: seq<Group>, od: seq<Group>)
    requires forall k :: 0 <= k < |gd| ==> HasGroup(od, gd[k].name) && multiset(ArgsOf(od, gd[k].name)) == multiset(gd[k].args)
    requires forall k, i :: 0 <= k < |gd| && 0 <= i < |gd[k].args| && gd[k].args[i].JObj? ==> DistinctKeys(gd[k].args[i].fields)
    requires ScoreGroups(gd, od, Simple).Ok?
    ensures ScoreGroups(gd, od, Simple).value.exact == TotalArgs(gd)
  {
    if |gd| > 0 {
      assert forall k :: 0 < k < |gd| ==> gd[k] == gd[1..][k - 1];
      PermutedGroups(gd[1..], od);
      PermutedGroup(gd[0], od);
    }
  }

  /** A prediction holding the entries of a golden answer made only of well-formed calls,
      in any order, scores AllTools = 1 with the strict comparator (whenever the scoring
      raises nothing). */
  lemma PermutedPredictionScoresAllTools(golden: Json, toolCalls: Json, strict: bool)
    requires RoundScore(golden, toolCalls, strict, Simple).Ok?
    requires forall i :: 0 <= i < |Items(golden).value| ==> CallShaped(Items(golden).value[i])
    requires multiset(Items(toolCalls).value) == multiset(Items(golden).value)
    ensures RoundScore(golden, toolCalls, strict, Simple).value.allTools == 1.0
  {
    var items := Items(golden).value;
    var outItems := Items(toolCalls).value;
    var calls := WellFormedCalls(items, strict).value;
    var outs := WellFormedCalls(outItems, strict).value;
    WellFormedCallsSpec(items, strict);
    WellFormedCallsPermuted(items, outItems, strict);
    if |calls| > 0 {
      var gd := Grouped(calls);
      var od := Grouped(outs);
      GroupedSpec(calls);
      GroupedSpec(outs);
      CallArgsDistinct(items, strict);
      forall k | 0 <= k < |gd|
        ensures HasGroup(od, gd[k].name) && multiset(ArgsOf(od, gd[k].name)) == multiset(gd[k].args)
      {
        var n := gd[k].name;
        ArgsOfOwnName(gd, k);
        var i :| 0 <= i < |calls| && calls[i].name == n;
        assert calls[i] in multiset(outs);
        var j :| 0 <= j < |outs| && outs[j] == calls[i];
        NamedPermuted(outs, calls, n);
      }
      forall k, i | 0 <= k < |gd| && 0 <= i < |gd[k].args| && gd[k].args[i].JObj?
        ensures DistinctKeys(gd[k].args[i].fields)
      {
        ArgsOfOwnName(gd, k);
        NamedMembers(calls, gd[k].name, i);
        var j :| 0 <= j < |calls| && calls[j].name == gd[k].name && calls[j].args == Named(calls, gd[k].name)[i];
        assert ArgsDistinct(calls[j]);
      }
      AllToolsMeans(|items|, calls, outs, Simple);
      PermutedGroups(gd, od);
    } else {
      assert |outItems| == |multiset(outItems)| == |multiset(items)| == 0;
    }
  }

  /** A prediction identical to a golden answer made only of well-formed calls scores
      AllTools = 1 with the strict comparator (whenever the scoring raises nothing). */
  lemma PerfectPredictionScoresAllTools(golden: Json, strict: bool)
    requires RoundScore(golden, golden, strict, Simple).Ok?
    requires forall i :: 0 <= i < |Items(golden).value| ==> CallShaped(Items(golden).value[i])
    ensures RoundScore(golden, golden, strict, Simple).value.allTools == 1.0
  {
    PermutedPredictionScoresAllTools(golden, golden, strict);
  }

  // ---------------------------------------------------------------- tool accuracy

  /** The tool-name matches over the golden groups: min(g, p) for each golden group with
      `p` predicted calls of its name, and nothing for a name never predicted. */
  function NameMatches(gd: seq<Group>, od: seq<Group>): nat {
    if |gd| == 0 then 0
    else (if HasGroup(od, gd[0].name) then Min(|gd[0].args|, |ArgsOf(od, gd[0].name)|) else 0) + NameMatches(gd[1..], od)
  }

  lemma {:induction false} ScoreGroupsNameMatches(gd: seq<Group>, od: seq<Group>, cmp: Comparator)
    requires ScoreGroups(gd, od, cmp).Ok?
    ensures ScoreGroups(gd, od, cmp).value.nameMatches == NameMatches(gd, od)
  {
    if |gd| > 0 {
      ScoreGroupsNameMatches(gd[1..], od, cmp);
    }
  }

  /** ToolAccuracy is the share of golden calls that meet a predicted call of their name,
      counting min(g, p) per name. */
  lemma ToolAccuracyMeans(goldLen: nat, goldCalls: seq<Call>, outCalls: seq<Call>, cmp: Comparator)
    requires |goldCalls| <= goldLen && |goldCalls| > 0
    requires ScoreCalls(goldLen, goldCalls, outCalls, cmp).Ok?
    ensures ScoreCalls(goldLen, goldCalls, outCalls, cmp).value.toolAcc
         == NameMatches(Grouped(goldCalls), Grouped(outCalls)) as real / |goldCalls| as real
  {
    GroupedSpec(goldCalls);
    assert HasGroup(Grouped(goldCalls), goldCalls[0].name);
    ScoreGroupsNameMatches(Grouped(goldCalls), Grouped(outCalls), cmp);
  }

  lemma {:induction false} NameMatchesAgree(gd: seq<Group>, od1: seq<Group>, od2: seq<Group>)
    requires forall k :: 0 <= k < |gd| ==> (HasGroup(od1, gd[k].name) <==> HasGroup(od2, gd[k].name))
    requires forall k :: 0 <= k < |gd| ==> |ArgsOf(od1, gd[k].name)| == |ArgsOf(od2, gd[k].name)|
    ensures NameMatches(gd, od1) == NameMatches(gd, od2)
  {
    if |gd| > 0 {
      assert forall k :: 0 < k < |gd| ==> gd[k] == gd[1..][k - 1];
      NameMatchesAgree(gd[1..], od1, od2);
    }
  }

  /** Predicted calls holding the same calls in another order have, for every name, a
      group exactly when the other has one, of the same size. */
  lemma GroupsPermuted(outs1: seq<Call>, outs2: seq<Call>, n: string)
    requires multiset(outs1) == multiset(outs2)
    ensures HasGroup(Grouped(outs1), n) <==> HasGroup(Grouped(outs2), n)
    ensures |ArgsOf(Grouped(outs1), n)| == |ArgsOf(Grouped(outs2), n)|
  {
    GroupedSpec(outs1);
    GroupedSpec(outs2);
    NamedPermuted(outs1, outs2, n);
    NamedEmpty(outs1, n);
    NamedEmpty(outs2, n);
    assert |Named(outs1, n)| == |multiset(Named(outs1, n))| == |multiset(Named(outs2, n))| == |Named(outs2, n)|;
  }

  /** ToolAccuracy does not depend on the order of the predicted calls. */
  lemma ToolAccuracyPermutationInvariant(golden: Json, p1: Json, p2: Json, strict: bool, cmp: Comparator)
    requires RoundScore(golden, p1, strict, cmp).Ok? && RoundScore(golden, p2, strict, cmp).Ok?
    requires multiset(Items(p1).value) == multiset(Items(p2).value)
    ensures RoundScore(golden, p1, strict, cmp).value.toolAcc == RoundScore(golden, p2, strict, cmp).value.toolAcc
  {
    var items := Items(golden).value;
    var calls := WellFormedCalls(items, strict).value;
    var outs1 := WellFormedCalls(Items(p1).value, strict).value;
    var outs2 := WellFormedCalls(Items(p2).value, strict).value;
    WellFormedCallsSpec(items, strict);
    WellFormedCallsPermuted(Items(p2).value, Items(p1).value, strict);
    if |calls| > 0 {
      ToolAccuracyMeans(|items|, calls, outs1, cmp);
      ToolAccuracyMeans(|items|, calls, outs2, cmp);
      var gd := Grouped(calls);
      forall k | 0 <= k < |gd|
        ensures (HasGroup(Grouped(outs1), gd[k].name) <==> HasGroup(Grouped(outs2), gd[k].name))
        ensures |ArgsOf(Grouped(outs1), gd[k].name)| == |ArgsOf(Grouped(outs2), gd[k].name)|
      {
        GroupsPermuted(outs1, outs2, gd[k].name);
      }
      NameMatchesAgree(gd, Grouped(outs1), Grouped(outs2));
    } else {
      assert |outs1| == |multiset(outs1)| == |multiset(outs2)| == |outs2|;
    }
  }
}

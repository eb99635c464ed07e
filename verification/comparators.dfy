/** The two parameter comparators of `evaluate/metrics.py`: the strict one, which compares
    serialised values, and the BFCL one, which accepts any of a list of golden alternatives.
    Both return how many golden parameters there are, how many the prediction matched, and
    whether it matched them all. */
module Comparators {
  import opened Wrappers
  import opened Text
  import opened JsonValues

  datatype Counts = Counts(total: nat, matched: nat, exact: bool)

  /** What every comparator result satisfies: at most all parameters match, and the call
      is exact precisely when all of them do. */
  predicate Coherent(c: Counts) {
    c.matched <= c.total && (c.exact <==> c.matched == c.total)
  }

  datatype Comparator = Simple | Bfcl

  function Compare(cmp: Comparator, gold: Json, out: Json): (r: Result<Counts>)
    ensures r.Ok? ==> gold.JObj? && r.value.total == |gold.fields| && Coherent(r.value)
  {
    match cmp
    case Simple => CompareSimple(gold, out)
    case Bfcl => CompareBfcl(gold, out)
  }

  // ================================================================ strict comparator

  /** The parameters of `fs` whose value the prediction `out` reproduces exactly. */
  function SimpleFields(fs: seq<Field>, out: seq<Field>): (c: Counts)
    ensures c.total == |fs| && Coherent(c)
    ensures c.exact <==> forall i :: 0 <= i < |fs| ==> GetOrNull(out, fs[i].key) == fs[i].val
  {
    if |fs| == 0 then Counts(0, 0, true)
    else
      var rest := SimpleFields(fs[1..], out);
      assert forall i :: 0 < i < |fs| ==> fs[i] == fs[1..][i - 1];
      var hit := GetOrNull(out, fs[0].key) == fs[0].val;
      Counts(rest.total + 1, rest.matched + (if hit then 1 else 0), hit && rest.exact)
  }

  /** `compare_params_simple`: a parameter matches when the serialised prediction equals
      the serialised golden value, which is structural equality here (key order counts, and
      `1`, `1.0` and `true` differ); a missing key is predicted as `None`. Iterating a
      non-dict golden value, or looking a key up in a non-dict prediction, raises
      `AttributeError`. */
  function CompareSimple(gold: Json, out: Json): (r: Result<Counts>)
    ensures r.Ok? <==> gold.JObj? && (|gold.fields| == 0 || out.JObj?)
    ensures r.Ok? ==> r.value.total == |gold.fields| && Coherent(r.value)
    ensures r.Ok? && out.JObj? ==>
              (r.value.exact <==> forall i :: 0 <= i < |gold.fields| ==> GetOrNull(out.fields, gold.fields[i].key) == gold.fields[i].val)
  {
    if !gold.JObj? then Err(AttributeError)
    else if |gold.fields| == 0 then Ok(Counts(0, 0, true))
    else if !out.JObj? then Err(AttributeError)
    else Ok(SimpleFields(gold.fields, out.fields))
  }

  lemma {:induction false} SimpleFieldsLocal(fs: seq<Field>, out1: seq<Field>, out2: seq<Field>)
    requires forall i :: 0 <= i < |fs| ==> Lookup(out1, fs[i].key) == Lookup(out2, fs[i].key)
    ensures SimpleFields(fs, out1) == SimpleFields(fs, out2)
  {
    if |fs| > 0 {
      assert forall i :: 0 < i < |fs| ==> fs[i] == fs[1..][i - 1];
      SimpleFieldsLocal(fs[1..], out1, out2);
    }
  }

  /** Keys only the prediction has are ignored: two predictions that agree on the golden
      keys score the same. */
  lemma ExtraKeysIgnored(gold: seq<Field>, out1: seq<Field>, out2: seq<Field>)
    requires forall i :: 0 <= i < |gold| ==> Lookup(out1, gold[i].key) == Lookup(out2, gold[i].key)
    ensures CompareSimple(JObj(gold), JObj(out1)) == CompareSimple(JObj(gold), JObj(out2))
  {
    SimpleFieldsLocal(gold, out1, out2);
  }

  /** A missing predicted parameter matches a golden `None`, and numbers of different types
      never match even when Python's `==` would accept them. */
  lemma SimpleExamples()
    ensures CompareSimple(JObj([Field("a", JNull)]), JObj([])) == Ok(Counts(1, 1, true))
    ensures CompareSimple(JObj([Field("a", JInt(1))]), JObj([Field("a", JFloat(1.0))])) == Ok(Counts(1, 0, false))
    ensures CompareSimple(JObj([Field("a", JInt(1))]), JObj([Field("a", JBool(true))])) == Ok(Counts(1, 0, false))
    ensures PyEq(JInt(1), JFloat(1.0)) && PyEq(JInt(1), JBool(true))
  {
    assert GetOrNull([], "a") == JNull;
    assert [Field("a", JFloat(1.0))][0].key == "a";
    assert [Field("a", JBool(true))][0].key == "a";
  }

  // ================================================================ BFCL comparator

  /** `[x for x in xs if x is not None]`. */
  function FilterNull(xs: seq<Json>): (r: seq<Json>)
    ensures forall i :: 0 <= i < |r| ==> !r[i].JNull? && r[i] in xs
    ensures (forall i :: 0 <= i < |xs| ==> xs[i].JNull?) <==> |r| == 0
  {
    if |xs| == 0 then []
    else
      var rest := FilterNull(xs[1..]);
      assert forall i :: 0 < i < |xs| ==> xs[i] == xs[1..][i - 1];
      if xs[0].JNull? then rest else [xs[0]] + rest
  }

  lemma SizeIn(xs: seq<Json>, x: Json)
    requires x in xs
    ensures Size(x) <= SizeSeq(xs)
  {
    var i :| 0 <= i < |xs| && xs[i] == x;
    SizeSeqMember(xs, i);
  }

  predicate AllDicts(xs: seq<Json>) {
    forall i :: 0 <= i < |xs| ==> xs[i].JObj?
  }

  predicate AllNumbers(xs: seq<Json>) {
    forall i :: 0 <= i < |xs| ==> IsNumber(xs[i])
  }

  predicate AllStrings(xs: seq<Json>) {
    forall i :: 0 <= i < |xs| ==> xs[i].JStr?
  }

  function NumVals(xs: seq<Json>): (r: seq<real>)
    requires AllNumbers(xs)
    ensures |r| == |xs| && forall i :: 0 <= i < |xs| ==> r[i] == NumVal(xs[i])
  {
    if |xs| == 0 then [] else [NumVal(xs[0])] + NumVals(xs[1..])
  }

  function Strs(xs: seq<Json>): (r: seq<string>)
    requires AllStrings(xs)
    ensures |r| == |xs| && forall i :: 0 <= i < |xs| ==> r[i] == xs[i].s
  {
    if |xs| == 0 then [] else [xs[0].s] + Strs(xs[1..])
  }

  /** Python `x < y` and `y < x` evaluate without `TypeError`: numbers (bools included)
      with numbers, strings with strings, and two lists whose first unequal elements can in
      turn be ordered (lists equal up to the shorter length are ordered by length). */
  predicate Orderable(x: Json, y: Json)
    decreases Size(x), 0
  {
    if IsNumber(x) || IsNumber(y) then IsNumber(x) && IsNumber(y)
    else if x.JStr? && y.JStr? then true
    else if x.JList? && y.JList? then ListsOrderable(x.elems, y.elems)
    else false
  }

  predicate ListsOrderable(xs: seq<Json>, ys: seq<Json>)
    decreases SizeSeq(xs), 1
  {
    if |xs| == 0 || |ys| == 0 then true
    else if PyEq(xs[0], ys[0]) then ListsOrderable(xs[1..], ys[1..])
    else Orderable(xs[0], ys[0])
  }

  /** A list `sorted` orders without raising: every two of its elements can be compared.
      This covers numbers only, strings only, lists of such lists (lexicographically), and
      lists of at most one element. */
  predicate Sortable(xs: seq<Json>) {
    forall i, j :: 0 <= i < |xs| && 0 <= j < |xs| && i != j ==> Orderable(xs[i], xs[j])
  }

  /** The first position of `b` holding a value Python's `==` finds equal to `x`, or `|b|`. */
  function FirstEq(x: Json, b: seq<Json>): (j: nat)
    ensures j <= |b|
    ensures j < |b| ==> PyEq(x, b[j])
    ensures forall i :: 0 <= i < j ==> !PyEq(x, b[i])
  {
    if |b| == 0 then 0
    else if PyEq(x, b[0]) then 0
    else 1 + FirstEq(x, b[1..])
  }

  /** `b` rearranges `a` up to Python's `==`: each element of `a` in turn takes the first
      still unused element of `b` equal to it, and none is left over. */
  function PermEq(a: seq<Json>, b: seq<Json>): (r: bool)
    ensures r ==> |a| == |b|
    ensures |a| == 0 ==> (r <==> |b| == 0)
  {
    if |a| == 0 then |b| == 0
    else
      var j := FirstEq(a[0], b);
      j < |b| && PermEq(a[1..], b[..j] + b[j + 1..])
  }

  /** `sorted(a) == sorted(b)`. Each list must be sortable, or `sorted` raises `TypeError`;
      what the comparison means is stated by `SortedEqNumbers`, `SortedEqStrings` and
      `SortedEqMixed`. */
  function SortedEq(a: seq<Json>, b: seq<Json>): (r: Result<bool>)
    ensures r.Ok? <==> Sortable(a) && Sortable(b)
    ensures r.Ok? && r.value ==> |a| == |b|
  {
    if !Sortable(a) || !Sortable(b) then Err(TypeError)
    else if |a| != |b| then Ok(false)
    else if AllNumbers(a) && AllNumbers(b) then Ok(multiset(NumVals(a)) == multiset(NumVals(b)))
    else if AllStrings(a) && AllStrings(b) then Ok(multiset(Strs(a)) == multiset(Strs(b)))
    else Ok(PermEq(a, b))
  }

  /** Two number lists sort equal exactly when they hold the same numeric values, each as
      often. */
  lemma SortedEqNumbers(a: seq<Json>, b: seq<Json>)
    requires AllNumbers(a) && AllNumbers(b)
    ensures SortedEq(a, b) == Ok(multiset(NumVals(a)) == multiset(NumVals(b)))
  {
    SortableKinds(a, [], []);
    SortableKinds(b, [], []);
    if |a| != |b| {
      assert |multiset(NumVals(a))| != |multiset(NumVals(b))|;
    }
  }

  /** Two string lists sort equal exactly when they hold the same strings, each as often. */
  lemma SortedEqStrings(a: seq<Json>, b: seq<Json>)
    requires AllStrings(a) && AllStrings(b)
    ensures SortedEq(a, b) == Ok(multiset(Strs(a)) == multiset(Strs(b)))
  {
    SortableKinds(a, [], []);
    SortableKinds(b, [], []);
    if |a| != |b| {
      assert |multiset(Strs(a))| != |multiset(Strs(b))|;
    } else if |a| > 0 {
      assert !IsNumber(a[0]);
    }
  }

  /** Any other two sortable lists, lists of lists among them, sort equal exactly when one
      rearranges the other up to `==`. */
  lemma SortedEqMixed(a: seq<Json>, b: seq<Json>)
    requires Sortable(a) && Sortable(b)
    requires !(AllNumbers(a) && AllNumbers(b)) && !(AllStrings(a) && AllStrings(b))
    ensures SortedEq(a, b) == Ok(PermEq(a, b))
  {
  }

  /** Numbers and strings are sortable, and so is a pair of number lists. */
  lemma SortableKinds(xs: seq<Json>, p: seq<Json>, q: seq<Json>)
    ensures AllNumbers(xs) || AllStrings(xs) ==> Sortable(xs)
    ensures AllNumbers(p) && AllNumbers(q) ==> Sortable([JList(p), JList(q)])
  {
    if AllNumbers(p) && AllNumbers(q) {
      ListsNumbersOrderable(p, q);
      ListsNumbersOrderable(q, p);
    }
  }

  lemma {:induction false} ListsNumbersOrderable(p: seq<Json>, q: seq<Json>)
    requires AllNumbers(p) && AllNumbers(q)
    ensures ListsOrderable(p, q)
  {
    if |p| > 0 && |q| > 0 && PyEq(p[0], q[0]) {
      assert AllNumbers(p[1..]) && AllNumbers(q[1..]);
      ListsNumbersOrderable(p[1..], q[1..]);
    }
  }

  /** A matrix argument: a golden alternative of two number rows accepts the same two rows
      in either order. */
  lemma MatrixRowsSortedEq(p: seq<Json>, q: seq<Json>)
    requires AllNumbers(p) && AllNumbers(q)
    ensures SortedEq([JList(p), JList(q)], [JList(p), JList(q)]) == Ok(true)
    ensures SortedEq([JList(p), JList(q)], [JList(q), JList(p)]) == Ok(true)
  {
    SortableKinds([], p, q);
    SortableKinds([], q, p);
    assert !IsNumber([JList(p), JList(q)][0]) && ![JList(p), JList(q)][0].JStr?;
    SortedEqMixed([JList(p), JList(q)], [JList(p), JList(q)]);
    SortedEqMixed([JList(p), JList(q)], [JList(q), JList(p)]);
    RowsPermSame(p, q);
    RowsPermSwap(p, q);
  }

  lemma RowsPermSame(p: seq<Json>, q: seq<Json>)
    requires AllNumbers(p) && AllNumbers(q)
    ensures PermEq([JList(p), JList(q)], [JList(p), JList(q)])
  {
    var P, Q := JList(p), JList(q);
    NumberListEq(p, p);
    NumberListEq(q, q);
    assert PermEq([Q], [Q]);
    assert FirstEq(P, [P, Q]) == 0 && [P, Q][1..] == [Q];
    assert [P, Q][..0] + [P, Q][1..] == [Q];
  }

  lemma RowsPermSwap(p: seq<Json>, q: seq<Json>)
    requires AllNumbers(p) && AllNumbers(q)
    ensures PermEq([JList(p), JList(q)], [JList(q), JList(p)])
  {
    var P, Q := JList(p), JList(q);
    NumberListEq(q, q);
    NumberListEq(p, q);
    assert [P, Q][1..] == [Q];
    if PyEq(P, Q) {
      assert PermEq([Q], [P]);
      assert FirstEq(P, [Q, P]) == 0 && [Q, P][..0] + [Q, P][1..] == [P];
    } else {
      assert PermEq([Q], [Q]);
      assert FirstEq(P, [Q, P]) == 1 && [Q, P][..1] + [Q, P][2..] == [Q];
    }
  }

  /** Python's `==` on two number lists is elementwise numeric equality, so it is reflexive
      and symmetric on them. */
  lemma {:induction false} NumberListEq(p: seq<Json>, q: seq<Json>)
    requires AllNumbers(p) && AllNumbers(q)
    ensures ListEq(p, p)
    ensures ListEq(p, q) <==> ListEq(q, p)
  {
    if |p| > 0 {
      assert AllNumbers(p[1..]);
      if |q| > 0 {
        assert AllNumbers(q[1..]);
        NumberListEq(p[1..], q[1..]);
      } else {
        NumberListEq(p[1..], []);
      }
    }
  }

  /** `compare_params_bfcl`. Iterating a non-dict golden value, or looking a key up in a
      non-dict prediction, raises `AttributeError`. */
  function CompareBfcl(gold: Json, out: Json): (r: Result<Counts>)
    ensures r.Ok? ==> gold.JObj? && r.value.total == |gold.fields| && Coherent(r.value)
    ensures !gold.JObj? || (|gold.fields| > 0 && !out.JObj?) ==> r == Err(AttributeError)
    ensures gold.JObj? && |gold.fields| == 0 ==> r == Ok(Counts(0, 0, true))
    decreases Size(gold), 0
  {
    if !gold.JObj? then Err(AttributeError)
    else if |gold.fields| == 0 then Ok(Counts(0, 0, true))
    else if !out.JObj? then Err(AttributeError)
    else BfclFields(gold.fields, out.fields)
  }

  /** The loop over the golden parameters. */
  function BfclFields(fs: seq<Field>, out: seq<Field>): (r: Result<Counts>)
    ensures r.Ok? ==> r.value.total == |fs| && Coherent(r.value)
    decreases SizeFields(fs), 1
  {
    if |fs| == 0 then Ok(Counts(0, 0, true))
    else
      var hit :- BfclAccepts(fs[0].val, GetOrNull(out, fs[0].key));
      var rest :- BfclFields(fs[1..], out);
      Ok(Counts(rest.total + 1, rest.matched + (if hit then 1 else 0), hit && rest.exact))
  }

  /** Whether one golden parameter value accepts the predicted one. Two lists go through
      the alternatives scan; two dicts reach a call of a name the module never defines,
      which raises `NameError`; everything else is the scalar test. */
  function BfclAccepts(gv: Json, ov: Json): (r: Result<bool>)
    ensures gv.JObj? && ov.JObj? ==> r == Err(NameError)
    decreases Size(gv), 0
  {
    if gv.JList? && ov.JList? then Scan(gv.elems, FilterNull(ov.elems), false)
    else if gv.JObj? && ov.JObj? then Err(NameError)
    else ScalarAccepts(gv, ov)
  }

  /** The scan over the golden alternatives `alts` against the filtered prediction `outF`.
      A list alternative made only of dicts compares its first dict with the first predicted
      element; the nested counts are discarded and the alternative counts as found, but the
      scan goes on. Any other list alternative matches when it equals the prediction as a
      sorted multiset, which ends the scan. A non-list alternative is compared with the
      whole predicted list and never matches. */
  function Scan(alts: seq<Json>, outF: seq<Json>, found: bool): (r: Result<bool>)
    ensures found && r.Ok? ==> r.value
    decreases SizeSeq(alts), 0
  {
    if |alts| == 0 then Ok(found)
    else
      var gv := alts[0];
      if gv.JList? then
        var gvF := FilterNull(gv.elems);
        if AllDicts(gvF) then
          if |gvF| > 0 && |outF| > 0 then
            SizeIn(gv.elems, gvF[0]);
            assert Size(gvF[0]) < Size(gv) <= SizeSeq(alts);
            var nested :- CompareBfcl(gvF[0], outF[0]);
            Scan(alts[1..], outF, true)
          else Scan(alts[1..], outF, found)
        else
          var same :- SortedEq(gvF, outF);
          if same then Ok(true) else Scan(alts[1..], outF, found)
      else Scan(alts[1..], outF, found)
  }

  /** `x in xs` for a Python list. */
  predicate InList(x: Json, xs: seq<Json>) {
    exists i :: 0 <= i < |xs| && PyEq(x, xs[i])
  }

  /** The scalar test: the prediction is a member of a golden list, or equals a non-list
      golden value; failing that, a missing prediction is accepted when `''` is in the
      golden value, which holds for every golden string. */
  function ScalarAccepts(gv: Json, ov: Json): (r: Result<bool>)
    ensures gv.JList? ==> r == Ok(InList(ov, gv.elems) || (ov.JNull? && InList(JStr(""), gv.elems)))
    ensures !gv.JList? && PyEq(gv, ov) ==> r == Ok(true)
    ensures gv.JStr? && ov.JNull? ==> r == Ok(true)
    ensures gv.JObj? && ov.JNull? ==> r == Ok(HasKey(gv.fields, ""))
    ensures IsNumber(gv) && ov.JNull? ==> r == Err(TypeError)
    ensures !ov.JNull? && !gv.JList? ==> r == Ok(PyEq(gv, ov))
  {
    var first := if gv.JList? then InList(ov, gv.elems) else PyEq(gv, ov);
    if first then Ok(true)
    else if ov.JNull? then
      assert gv.JStr? ==> Text.OccursAt(gv.s, "", 0);
      PyIn(JStr(""), gv)
    else Ok(false)
  }

  /** An alternative that is not a list, or is a list of `None`s only, never sets the
      found flag. */
  lemma SkippedAlternatives(alts: seq<Json>, outF: seq<Json>, found: bool)
    requires |alts| > 0
    requires !alts[0].JList? || forall i :: 0 <= i < |alts[0].elems| ==> alts[0].elems[i].JNull?
    ensures Scan(alts, outF, found) == Scan(alts[1..], outF, found)
  {
  }

  /** A non-empty all-dict alternative counts as found whatever the nested comparison
      says, as long as it raises nothing. */
  lemma DictAlternativeFound(alts: seq<Json>, outF: seq<Json>, found: bool)
    requires |alts| > 0 && alts[0].JList? && |outF| > 0
    requires AllDicts(FilterNull(alts[0].elems)) && |FilterNull(alts[0].elems)| > 0
    requires CompareBfcl(FilterNull(alts[0].elems)[0], outF[0]).Ok?
    ensures Scan(alts, outF, found) == Scan(alts[1..], outF, true)
    ensures Scan(alts, outF, found).Ok? ==> Scan(alts, outF, found).value
  {
  }

  /** What one golden alternative does in the scan: raise, be skipped, be found (a
      non-empty all-dict list against a non-empty prediction; the scan goes on) or match
      (a sortable list that sorts equal to the prediction; the scan stops). */
  datatype Outcome = Skipped | Found | Matched

  function AltOutcome(gv: Json, outF: seq<Json>): Result<Outcome> {
    if !gv.JList? then Ok(Skipped)
    else
      var gvF := FilterNull(gv.elems);
      if AllDicts(gvF) then
        if |gvF| > 0 && |outF| > 0 then
          var nested :- CompareBfcl(gvF[0], outF[0]);
          Ok(Found)
        else Ok(Skipped)
      else
        var same :- SortedEq(gvF, outF);
        Ok(if same then Matched else Skipped)
  }

  /** One step of the scan is the outcome of its first alternative. */
  lemma ScanStep(alts: seq<Json>, outF: seq<Json>, found: bool)
    requires |alts| > 0
    ensures AltOutcome(alts[0], outF).Err? ==> Scan(alts, outF, found) == Err(AltOutcome(alts[0], outF).error)
    ensures AltOutcome(alts[0], outF) == Ok(Matched) ==> Scan(alts, outF, found) == Ok(true)
    ensures AltOutcome(alts[0], outF) == Ok(Found) ==> Scan(alts, outF, found) == Scan(alts[1..], outF, true)
    ensures AltOutcome(alts[0], outF) == Ok(Skipped) ==> Scan(alts, outF, found) == Scan(alts[1..], outF, found)
  {
  }

  /** No alternative before position `k` matches. */
  predicate NoMatchBefore(alts: seq<Json>, outF: seq<Json>, k: nat)
    requires k <= |alts|
  {
    forall i :: 0 <= i < k ==> AltOutcome(alts[i], outF) != Ok(Matched)
  }

  /** The alternative at `k` is found or matches. */
  predicate Hit(alts: seq<Json>, outF: seq<Json>, k: nat)
    requires k < |alts|
  {
    AltOutcome(alts[k], outF) == Ok(Found) || AltOutcome(alts[k], outF) == Ok(Matched)
  }

  /** The scan raises exactly when some alternative reached before the first match raises. */
  lemma {:induction false} ScanOk(alts: seq<Json>, outF: seq<Json>, found: bool)
    ensures Scan(alts, outF, found).Ok? <==>
              forall k :: 0 <= k < |alts| && NoMatchBefore(alts, outF, k) ==> AltOutcome(alts[k], outF).Ok?
  {
    if |alts| > 0 {
      ScanStep(alts, outF, found);
      assert forall i :: 0 <= i < |alts| - 1 ==> alts[1..][i] == alts[i + 1];
      var o := AltOutcome(alts[0], outF);
      if o == Ok(Found) {
        ScanOk(alts[1..], outF, true);
      } else if o == Ok(Skipped) {
        ScanOk(alts[1..], outF, found);
      }
      if o.Ok? && o != Ok(Matched) {
        assert forall k :: 1 <= k <= |alts| ==> (NoMatchBefore(alts, outF, k) <==> NoMatchBefore(alts[1..], outF, k - 1));
      }
    }
  }

  /** When it raises nothing, the scan reports found exactly when the flag was already set
      or some alternative is found or matches. */
  lemma {:induction false} ScanValue(alts: seq<Json>, outF: seq<Json>, found: bool)
    requires Scan(alts, outF, found).Ok?
    ensures Scan(alts, outF, found).value <==> found || exists k :: 0 <= k < |alts| && Hit(alts, outF, k)
  {
    if |alts| > 0 {
      ScanStep(alts, outF, found);
      assert forall i :: 0 <= i < |alts| - 1 ==> alts[1..][i] == alts[i + 1];
      var o := AltOutcome(alts[0], outF);
      if o == Ok(Found) {
        ScanValue(alts[1..], outF, true);
        assert Hit(alts, outF, 0);
      } else if o == Ok(Skipped) {
        ScanValue(alts[1..], outF, found);
        if exists k :: 0 <= k < |alts| && Hit(alts, outF, k) {
          var k :| 0 <= k < |alts| && Hit(alts, outF, k);
          assert k > 0 && Hit(alts[1..], outF, k - 1);
        }
        if exists k :: 0 <= k < |alts| - 1 && Hit(alts[1..], outF, k) {
          var k :| 0 <= k < |alts| - 1 && Hit(alts[1..], outF, k);
          assert Hit(alts, outF, k + 1);
        }
      } else {
        assert Hit(alts, outF, 0);
      }
    }
  }

  /** A golden list accepts a predicted list at the first alternative that sorts equal to
      the (filtered) prediction, whatever kinds of alternative come before it, as long as
      none of them raises. */
  lemma ListAlternativeMatches(gv: seq<Json>, ov: seq<Json>, k: nat)
    requires k < |gv| && AltOutcome(gv[k], FilterNull(ov)) == Ok(Matched)
    requires forall i :: 0 <= i < k ==> AltOutcome(gv[i], FilterNull(ov)).Ok?
    ensures BfclAccepts(JList(gv), JList(ov)) == Ok(true)
  {
    var outF := FilterNull(ov);
    assert forall m :: 0 <= m < |gv| && NoMatchBefore(gv, outF, m) ==> m <= k;
    ScanOk(gv, outF, false);
    ScanValue(gv, outF, false);
    assert Hit(gv, outF, k);
  }

  /** Whether the golden field at `i` accepts the prediction `out`. */
  function FieldAccepts(fs: seq<Field>, out: seq<Field>, i: nat): Result<bool>
    requires i < |fs|
  {
    BfclAccepts(fs[i].val, GetOrNull(out, fs[i].key))
  }

  /** For each golden field, whether it accepts the prediction. */
  function AcceptedFlags(fs: seq<Field>, out: seq<Field>): seq<bool> {
    seq(|fs|, i requires 0 <= i < |fs| => FieldAccepts(fs, out, i) == Ok(true))
  }

  /** One step of the BFCL loop: the first golden parameter's test, then the rest. */
  lemma BfclFieldsStep(fs: seq<Field>, out: seq<Field>)
    requires |fs| > 0
    ensures FieldAccepts(fs, out, 0).Err? ==> BfclFields(fs, out) == Err(FieldAccepts(fs, out, 0).error)
    ensures FieldAccepts(fs, out, 0).Ok? && BfclFields(fs[1..], out).Err? ==>
              BfclFields(fs, out) == Err(BfclFields(fs[1..], out).error)
    ensures FieldAccepts(fs, out, 0).Ok? && BfclFields(fs[1..], out).Ok? ==>
              var hit, rest := FieldAccepts(fs, out, 0).value, BfclFields(fs[1..], out).value;
              BfclFields(fs, out) == Ok(Counts(rest.total + 1, rest.matched + (if hit then 1 else 0), hit && rest.exact))
  {
  }

  /** The BFCL loop raises exactly when some golden parameter's test raises. */
  lemma {:induction false} BfclFieldsOk(fs: seq<Field>, out: seq<Field>)
    ensures BfclFields(fs, out).Ok? <==> forall i :: 0 <= i < |fs| ==> FieldAccepts(fs, out, i).Ok?
  {
    if |fs| > 0 {
      BfclFieldsStep(fs, out);
      BfclFieldsOk(fs[1..], out);
      if FieldAccepts(fs, out, 0).Ok? {
        if BfclFields(fs[1..], out).Err? {
          var i :| 0 <= i < |fs| - 1 && !FieldAccepts(fs[1..], out, i).Ok?;
          assert fs[i + 1] == fs[1..][i];
          assert !FieldAccepts(fs, out, i + 1).Ok?;
        } else {
          forall i | 0 < i < |fs|
            ensures FieldAccepts(fs, out, i).Ok?
          {
            assert fs[i] == fs[1..][i - 1];
            assert FieldAccepts(fs[1..], out, i - 1).Ok?;
            assert FieldAccepts(fs, out, i) == FieldAccepts(fs[1..], out, i - 1);
          }
        }
      }
    }
  }

  /** When it raises nothing, the BFCL loop matches the number of golden parameters that
      accept the prediction. */
  lemma {:induction false} BfclFieldsCount(fs: seq<Field>, out: seq<Field>)
    requires BfclFields(fs, out).Ok?
    ensures BfclFields(fs, out).value.matched == multiset(AcceptedFlags(fs, out))[true]
  {
    if |fs| > 0 {
      BfclFieldsStep(fs, out);
      BfclFieldsCount(fs[1..], out);
      assert forall i :: 0 < i < |fs| ==> fs[i] == fs[1..][i - 1];
      assert AcceptedFlags(fs, out) == [FieldAccepts(fs, out, 0) == Ok(true)] + AcceptedFlags(fs[1..], out);
    }
  }

  /** When it raises nothing, the BFCL loop is exact when every golden parameter accepts
      the prediction. */
  lemma {:induction false} BfclFieldsExact(fs: seq<Field>, out: seq<Field>)
    requires BfclFields(fs, out).Ok?
    ensures BfclFields(fs, out).value.exact <==> forall i :: 0 <= i < |fs| ==> FieldAccepts(fs, out, i) == Ok(true)
  {
    if |fs| > 0 {
      BfclFieldsStep(fs, out);
      BfclFieldsExact(fs[1..], out);
      if BfclFields(fs, out).value.exact {
        forall i | 0 < i < |fs|
          ensures FieldAccepts(fs, out, i) == Ok(true)
        {
          assert fs[i] == fs[1..][i - 1];
          assert FieldAccepts(fs[1..], out, i - 1) == Ok(true);
          assert FieldAccepts(fs, out, i) == FieldAccepts(fs[1..], out, i - 1);
        }
      } else if FieldAccepts(fs, out, 0) == Ok(true) {
        var i :| 0 <= i < |fs| - 1 && FieldAccepts(fs[1..], out, i) != Ok(true);
        assert fs[i + 1] == fs[1..][i];
        assert FieldAccepts(fs, out, i + 1) != Ok(true);
      }
    }
  }

  /** `compare_params_bfcl` on two dicts: it raises exactly when some golden key's test
      raises, matches the golden keys whose test accepts the prediction, and is exact when
      all of them do. */
  lemma CompareBfclCount(gold: Json, out: Json)
    requires gold.JObj? && out.JObj?
    ensures CompareBfcl(gold, out).Ok? <==> forall i :: 0 <= i < |gold.fields| ==> FieldAccepts(gold.fields, out.fields, i).Ok?
    ensures CompareBfcl(gold, out).Ok? ==> CompareBfcl(gold, out).value.matched == multiset(AcceptedFlags(gold.fields, out.fields))[true]
    ensures CompareBfcl(gold, out).Ok? ==>
              (CompareBfcl(gold, out).value.exact <==>
                 forall i :: 0 <= i < |gold.fields| ==> FieldAccepts(gold.fields, out.fields, i) == Ok(true))
  {
    BfclFieldsOk(gold.fields, out.fields);
    if CompareBfcl(gold, out).Ok? {
      BfclFieldsCount(gold.fields, out.fields);
      BfclFieldsExact(gold.fields, out.fields);
    }
  }

  /** The matrix argument of two number rows, predicted with its rows in either order, is
      matched. */
  lemma MatrixArgumentMatched(p: seq<Json>, q: seq<Json>, k: string)
    requires AllNumbers(p) && AllNumbers(q)
    ensures CompareBfcl(JObj([Field(k, JList([JList([JList(p), JList(q)])]))]),
                        JObj([Field(k, JList([JList(q), JList(p)]))])) == Ok(Counts(1, 1, true))
  {
    var gold := [Field(k, JList([JList([JList(p), JList(q)])]))];
    var out := [Field(k, JList([JList(q), JList(p)]))];
    MatrixAlternativeAccepts(p, q);
    assert out[0].key == k;
    assert GetOrNull(out, k) == JList([JList(q), JList(p)]);
    assert FieldAccepts(gold, out, 0) == Ok(true);
    BfclFieldsStep(gold, out);
    assert gold[1..] == [];
  }

  lemma MatrixAlternativeAccepts(p: seq<Json>, q: seq<Json>)
    requires AllNumbers(p) && AllNumbers(q)
    ensures BfclAccepts(JList([JList([JList(p), JList(q)])]), JList([JList(q), JList(p)])) == Ok(true)
  {
    var rows := [JList(p), JList(q)];
    var outF := [JList(q), JList(p)];
    assert FilterNull(rows) == rows by {
      assert rows[1..] == [JList(q)];
    }
    assert FilterNull(outF) == outF by {
      assert outF[1..] == [JList(p)];
    }
    assert !AllDicts(rows) by { assert !rows[0].JObj?; }
    MatrixRowsSortedEq(p, q);
    ListAlternativeMatches([JList(rows)], outF, 0);
  }

  /** A golden string parameter accepts a missing prediction, whatever the string. */
  lemma StringGoldAcceptsMissing(gold: seq<Field>, out: seq<Field>, k: string, s: string)
    requires Lookup(gold, k) == Some(JStr(s)) && !HasKey(out, k)
    ensures BfclAccepts(GetOrNull(gold, k), GetOrNull(out, k)) == Ok(true)
  {
  }
}

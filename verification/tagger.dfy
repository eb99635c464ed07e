/** The bookkeeping of the tagging driver: which slice of the data one tagger instance
    works on, the name of its output file, the batches it labels the slice in, and the
    first-wins table of tags it writes. Loading the files, the model calls, the progress
    files and the final JSON dump are outside the model; the per-record labelling
    (preprocess, model call, postprocess) is a function parameter. */
module Tagger {
  import opened Wrappers
  import opened JsonValues
  import opened Text

  // ================================================================ the work range

  /** The `distribution` settings of one tagger instance. An index that is absent from
      the settings is `None`. */
  datatype Distribution = Distribution(id: int, num: int, fromIdx: Option<int>, toIdx: Option<int>, saveStep: int)

  /** `distribution.get(key, -1) != -1`. */
  predicate Given(o: Option<int>) {
    o.Some? && o.value != -1
  }

  /** Python's `a // b`: the floor of the quotient (Dafny's `/` is Euclidean, which agrees
      only for a positive divisor). */
  function FloorDiv(a: int, b: int): (q: int)
    requires b != 0
    ensures q * b <= a < q * b + b || q * b + b < a <= q * b
  {
    if b > 0 then a / b else (-a) / (-b)
  }

  /** The half-open index range `[from, to)` the instance tags, for `n` loaded records.
      The share `n // num` is computed for the progress line before anything else, so a
      zero `num` fails even when both indices are given. */
  function WorkRange(d: Distribution, n: nat): (r: Result<(int, int)>)
    ensures r.Err? <==> d.num == 0
    ensures r.Ok? && Given(d.fromIdx) && Given(d.toIdx) ==> r.value == (d.fromIdx.value, d.toIdx.value)
    ensures r.Ok? && !(Given(d.fromIdx) && Given(d.toIdx)) ==>
              r.value.1 - r.value.0 == FloorDiv(n, d.num) && r.value.0 == d.id * FloorDiv(n, d.num)
  {
    if d.num == 0 then Err(ZeroDivisionError)
    else
      var share := FloorDiv(n, d.num);
      if Given(d.fromIdx) && Given(d.toIdx) then Ok((d.fromIdx.value, d.toIdx.value))
      else Ok((d.id * share, (d.id + 1) * share))
  }

  /** The default ranges of the instances `0 .. num-1` tile `[0, num * (n // num))` in
      order: each instance's range ends where the next one's starts, and the last one
      ends `n % num` records short of the data. */
  lemma {:induction false} DefaultRanges(d: Distribution, n: nat)
    requires d.num > 0 && 0 <= d.id < d.num && !(Given(d.fromIdx) && Given(d.toIdx))
    ensures WorkRange(d, n).Ok?
    ensures var (from, stop) := WorkRange(d, n).value;
            0 <= from <= stop <= n && stop == WorkRange(d.(id := d.id + 1), n).value.0
    ensures d.id == d.num - 1 ==> WorkRange(d, n).value.1 == n - n % d.num
  {
    var q := n / d.num;
    assert FloorDiv(n, d.num) == q;
    assert WorkRange(d, n).value == (d.id * q, (d.id + 1) * q);
    assert WorkRange(d.(id := d.id + 1), n).value.0 == (d.id + 1) * q;
    ShareBounds(d.id, d.num, n);
  }

  /** The share of instance `id` lies inside `[0, n - n % num]`, and the last share ends
      exactly there. */
  lemma ShareBounds(id: int, num: int, n: nat)
    requires 0 <= id < num
    ensures 0 <= id * (n / num) <= (id + 1) * (n / num) <= n - n % num
    ensures id == num - 1 ==> (id + 1) * (n / num) == n - n % num
  {
    var q := n / num;
    MulMono(0, id, q);
    MulMono(id, id + 1, q);
    MulMono(id + 1, num, q);
    assert num * q + n % num == n;
  }

  /** `a <= b` gives `a * c <= b * c` for a non-negative `c`. */
  lemma MulMono(a: int, b: int, c: nat)
    requires a <= b
    ensures a * c <= b * c
  {
    assert b * c - a * c == (b - a) * c;
  }

  /** No default range of any instance reaches the last `n % num` records. */
  lemma UnassignedTail(d: Distribution, n: nat, x: int)
    requires d.num > 0 && 0 <= d.id < d.num && !(Given(d.fromIdx) && Given(d.toIdx))
    requires n - n % d.num <= x < n
    ensures WorkRange(d, n).Ok? && !(WorkRange(d, n).value.0 <= x < WorkRange(d, n).value.1)
  {
    var q := n / d.num;
    assert FloorDiv(n, d.num) == q;
    MulMono(d.id + 1, d.num, q);
    assert d.num * q + n % d.num == n;
  }

  // ================================================================ the output names

  /** The output name without its `.json` suffix, when it has one. */
  function Stem(name: string): (r: string)
    ensures EndsWith(name, ".json") ==> r + ".json" == name
    ensures !EndsWith(name, ".json") ==> r == name
  {
    if EndsWith(name, ".json") then name[..|name| - 5] else name
  }

  /** The file the instance writes: the stem, `.{id}` when the data is split between more
      than one instance, and `.json`. */
  function OutputName(name: string, d: Distribution): (r: string)
    ensures EndsWith(r, ".json")
    ensures d.num == 1 ==> r == Stem(name) + ".json"
    ensures d.num != 1 ==> r == Stem(name) + "." + IntToString(d.id) + ".json"
  {
    (if d.num == 1 then Stem(name) else Stem(name) + "." + IntToString(d.id)) + ".json"
  }

  /** With a single instance, naming is idempotent, and a name that already ends in
      `.json` is kept as it is. */
  lemma OutputNameSingle(name: string, d: Distribution)
    requires d.num == 1
    ensures OutputName(OutputName(name, d), d) == OutputName(name, d)
    ensures EndsWith(name, ".json") ==> OutputName(name, d) == name
  {
    var out := OutputName(name, d);
    assert Stem(out) == Stem(name) by {
      assert out[..|out| - 5] == Stem(name);
    }
  }

  /** Instances with different ids write different files. */
  lemma OutputNamesDiffer(name: string, d: Distribution, e: Distribution)
    requires d.num == e.num && d.num != 1 && 0 <= d.id && 0 <= e.id && d.id != e.id
    ensures OutputName(name, d) != OutputName(name, e)
  {
    var a, b := OutputName(name, d), OutputName(name, e);
    var k := |Stem(name)| + 1;
    assert a[k..|a| - 5] == NatToString(d.id);
    assert b[k..|b| - 5] == NatToString(e.id);
    NatToStringInjective(d.id, e.id);
  }

  /** Decimal spellings of different numbers differ. */
  lemma {:induction false} NatToStringInjective(a: nat, b: nat)
    requires a != b
    ensures NatToString(a) != NatToString(b)
  {
    var sa, sb := NatToString(a), NatToString(b);
    if a < 10 && b < 10 {
      assert sa[0] != sb[0] by { DigitsDiffer(a, b); }
    } else if a < 10 || b < 10 {
      if a < 10 {
        assert |sa| == 1 && |sb| >= 2;
      } else {
        assert |sb| == 1 && |sa| >= 2;
      }
    } else if a % 10 != b % 10 {
      assert sa[|sa| - 1] == DigitChar(a % 10) && sb[|sb| - 1] == DigitChar(b % 10);
      DigitsDiffer(a % 10, b % 10);
    } else {
      NatToStringInjective(a / 10, b / 10);
      assert sa == NatToString(a / 10) + [DigitChar(a % 10)];
      assert sb == NatToString(b / 10) + [DigitChar(b % 10)];
      assert sa[..|sa| - 1] != sb[..|sb| - 1];
    }
  }

  lemma DigitsDiffer(a: nat, b: nat)
    requires a < 10 && b < 10 && a != b
    ensures DigitChar(a) != DigitChar(b)
  {
  }

  /** The settings that follow from `save_step`: the batch size and the progress file
      (`None` when the whole range is one batch). */
  datatype Saving = Saving(step: int, progress: Option<string>)

  function SavingOf(d: Distribution, from: int, stop: int, output: string): (r: Saving)
    ensures d.saveStep == -1 ==> r == Saving(stop - from, None)
    ensures d.saveStep != -1 ==> r.step == d.saveStep && r.progress.Some? && EndsWith(r.progress.value, ".tmp.jsonl")
  {
    if d.saveStep == -1 then Saving(stop - from, None)
    else Saving(d.saveStep, Some(output[..if |output| >= 5 then |output| - 5 else 0] + ".tmp.jsonl"))
  }

  // ================================================================ batches

  /** Python's `min` on two integers. */
  function IntMin(a: int, b: int): (m: int)
    ensures m <= a && m <= b && (m == a || m == b)
  {
    if a <= b then a else b
  }

  /** One batch `[lo, hi)` of the loop `for i in range(from, to, step)`. */
  datatype Batch = Batch(lo: int, hi: int)

  /** The batches of an increasing range: `i = from, from+step, …` while `i < to`, each
      ending at `min(i + step, to)`. */
  function Ascending(from: int, stop: int, step: int): (bs: seq<Batch>)
    requires step > 0
    decreases stop - from
  {
    if from >= stop then [] else [Batch(from, IntMin(from + step, stop))] + Ascending(from + step, stop, step)
  }

  /** The batches of a decreasing range: `i = from, from+step, …` while `i > to`. */
  function Descending(from: int, stop: int, step: int): (bs: seq<Batch>)
    requires step < 0
    decreases from - stop
  {
    if from <= stop then [] else [Batch(from, IntMin(from + step, stop))] + Descending(from + step, stop, step)
  }

  /** The batches of `range(from, to, step)`; a zero step raises `ValueError`. */
  function Batches(from: int, stop: int, step: int): (r: Result<seq<Batch>>)
    ensures r.Err? <==> step == 0
    ensures r.Ok? && from >= stop && step > 0 ==> r.value == []
  {
    if step == 0 then Err(ValueError)
    else if step > 0 then Ok(Ascending(from, stop, step))
    else Ok(Descending(from, stop, step))
  }

  /** An increasing range is cut into non-empty batches of at most `step` records, the
      first starting at `from`, each starting where the previous one ended, the last
      ending at `to`. */
  lemma {:induction false} AscendingShape(from: int, stop: int, step: int)
    requires step > 0 && from < stop
    ensures |Ascending(from, stop, step)| > 0
    ensures Ascending(from, stop, step)[0].lo == from
    ensures Ascending(from, stop, step)[|Ascending(from, stop, step)| - 1].hi == stop
    ensures forall k :: 0 <= k < |Ascending(from, stop, step)| ==>
              Ascending(from, stop, step)[k].lo < Ascending(from, stop, step)[k].hi <= Ascending(from, stop, step)[k].lo + step
    ensures forall k :: 0 <= k < |Ascending(from, stop, step)| - 1 ==>
              Ascending(from, stop, step)[k].hi == Ascending(from, stop, step)[k + 1].lo
    decreases stop - from
  {
    var bs := Ascending(from, stop, step);
    if from + step < stop {
      AscendingShape(from + step, stop, step);
      var rest := Ascending(from + step, stop, step);
      assert bs == [Batch(from, from + step)] + rest;
      assert forall k :: 0 < k < |bs| ==> bs[k] == rest[k - 1];
    } else {
      assert Ascending(from + step, stop, step) == [];
      assert bs == [Batch(from, stop)];
    }
  }

  /** Python's `s[a:b]` for integer bounds: negative bounds count from the end, and both
      are clamped to the list. */
  function Bound(i: int, n: nat): (k: nat)
    ensures k <= n
    ensures 0 <= i <= n ==> k == i
  {
    if i < 0 then (if i + n < 0 then 0 else i + n) else if i > n then n else i
  }

  function PySlice<T>(s: seq<T>, a: int, b: int): (r: seq<T>)
    ensures 0 <= a <= b <= |s| ==> r == s[a..b]
  {
    var lo, hi := Bound(a, |s|), Bound(b, |s|);
    if lo < hi then s[lo..hi] else []
  }

  /** Two adjacent slices with non-negative bounds make up the slice they span. */
  lemma SliceSplit<T>(s: seq<T>, a: int, m: int, b: int)
    requires 0 <= a <= m <= b
    ensures PySlice(s, a, b) == PySlice(s, a, m) + PySlice(s, m, b)
  {
    var n := |s|;
    if b <= n {
      assert s[a..b] == s[a..m] + s[m..b];
    } else if m <= n {
      assert PySlice(s, a, b) == s[Bound(a, n)..n];
      assert PySlice(s, m, b) == s[m..n];
      if a < n {
        assert s[a..n] == s[a..m] + s[m..n];
      }
    }
  }

  /** A labelling of one record: the preprocessing, the model call and the
      postprocessing of the taggers, which the model does not look into. */
  type Labeller = Json -> Json

  function Map(f: Labeller, s: seq<Json>): (r: seq<Json>)
    ensures |r| == |s|
  {
    if |s| == 0 then [] else [f(s[0])] + Map(f, s[1..])
  }

  /** Each label is the labelling of the record at the same position. */
  lemma {:induction false} MapAt(f: Labeller, s: seq<Json>, k: nat)
    requires k < |s|
    ensures Map(f, s)[k] == f(s[k])
  {
    if k > 0 {
      MapAt(f, s[1..], k - 1);
    }
  }

  lemma {:induction false} MapAppend(f: Labeller, a: seq<Json>, b: seq<Json>)
    ensures Map(f, a + b) == Map(f, a) + Map(f, b)
  {
    if |a| == 0 {
      assert a + b == b;
    } else {
      assert (a + b)[1..] == a[1..] + b;
      MapAppend(f, a[1..], b);
    }
  }

  /** The results of the batches, extended one batch after the other. */
  function Labelled(f: Labeller, data: seq<Json>, bs: seq<Batch>): (r: seq<Json>)
  {
    if |bs| == 0 then [] else Map(f, PySlice(data, bs[0].lo, bs[0].hi)) + Labelled(f, data, bs[1..])
  }

  /** Batching changes nothing: labelling an increasing range batch by batch gives the
      labels of the whole slice `data[from:to]`, in order. */
  lemma {:induction false} AscendingCovers(f: Labeller, data: seq<Json>, from: int, stop: int, step: int)
    requires step > 0 && 0 <= from && 0 <= stop
    ensures Labelled(f, data, Ascending(from, stop, step)) == Map(f, PySlice(data, from, stop))
    decreases stop - from
  {
    if from + step < stop {
      AscendingCovers(f, data, from + step, stop, step);
      CoversStep(f, data, from, stop, step);
    } else if from < stop {
      CoversLast(f, data, from, stop, step);
    } else {
      assert PySlice(data, from, stop) == [];
    }
  }

  /** A first batch of `step` records followed by the rest of the range. */
  lemma CoversStep(f: Labeller, data: seq<Json>, from: int, stop: int, step: int)
    requires step > 0 && 0 <= from && from + step < stop
    requires Labelled(f, data, Ascending(from + step, stop, step)) == Map(f, PySlice(data, from + step, stop))
    ensures Labelled(f, data, Ascending(from, stop, step)) == Map(f, PySlice(data, from, stop))
  {
    AscendingCons(f, data, from, stop, step);
    SliceSplit(data, from, from + step, stop);
    MapAppend(f, PySlice(data, from, from + step), PySlice(data, from + step, stop));
  }

  /** A range of at most `step` records is one batch. */
  lemma CoversLast(f: Labeller, data: seq<Json>, from: int, stop: int, step: int)
    requires step > 0 && 0 <= from < stop <= from + step
    ensures Labelled(f, data, Ascending(from, stop, step)) == Map(f, PySlice(data, from, stop))
  {
    AscendingCons(f, data, from, stop, step);
  }

  /** The first batch of a non-empty increasing range, labelled before the rest. */
  lemma AscendingCons(f: Labeller, data: seq<Json>, from: int, stop: int, step: int)
    requires step > 0 && from < stop
    ensures Labelled(f, data, Ascending(from, stop, step)) ==
            Map(f, PySlice(data, from, IntMin(from + step, stop))) + Labelled(f, data, Ascending(from + step, stop, step))
    ensures from + step >= stop ==> Labelled(f, data, Ascending(from + step, stop, step)) == []
  {
    var bs := Ascending(from, stop, step);
    assert bs[1..] == Ascending(from + step, stop, step);
  }

  // ================================================================ the tag table

  /** The dictionary key a record's id becomes: numbers (booleans included) are one key
      per value, strings per text; lists and dicts cannot be keys. */
  datatype Key = NoneKey | NumKey(v: real) | StrKey(s: string)

  function AsKey(j: Json): (r: Result<Key>)
    ensures r.Err? <==> j.JList? || j.JObj?
  {
    match j
    case JNull => Ok(NoneKey)
    case JStr(s) => Ok(StrKey(s))
    case JList(_) => Err(TypeError)
    case JObj(_) => Err(TypeError)
    case _ => Ok(NumKey(NumVal(j)))
  }

  /** `data["id"]` as a dictionary key. */
  function IdKey(data: Json): Result<Key> {
    if data.JObj? && HasKey(data.fields, "id") then AsKey(GetOrNull(data.fields, "id"))
    else if data.JObj? then Err(KeyError)
    else Err(TypeError)
  }

  /** One entry of `tagged_result`: the key, the id it was first written under, the tag. */
  datatype Entry = Entry(key: Key, id: Json, tag: Json)

  predicate Listed(es: seq<Entry>, k: Key) {
    exists e :: 0 <= e < |es| && es[e].key == k
  }

  /** One step of the loop: a new id adds its tag (read only then); a known id is
      skipped. */
  function Record(acc: seq<Entry>, data: Json): (r: Result<seq<Entry>>)
    ensures r.Ok? ==> IdKey(data).Ok? && Listed(r.value, IdKey(data).value)
  {
    match IdKey(data)
    case Err(e) => Err(e)
    case Ok(k) =>
      if Listed(acc, k) then Ok(acc)
      else if HasKey(data.fields, "tag") then
        var r := acc + [Entry(k, GetOrNull(data.fields, "id"), GetOrNull(data.fields, "tag"))];
        assert r[|acc|].key == k;
        Ok(r)
      else Err(KeyError)
  }

  /** `tagged_result` built from the labelled records in order. */
  function Dedup(rs: seq<Json>): (r: Result<seq<Entry>>)
    decreases |rs|
  {
    if |rs| == 0 then Ok([])
    else match Dedup(rs[..|rs| - 1])
      case Err(e) => Err(e)
      case Ok(acc) => Record(acc, rs[|rs| - 1])
  }

  /** The record at `p` is the first one with its id. */
  predicate FirstWithKey(rs: seq<Json>, p: int)
    requires 0 <= p < |rs|
  {
    IdKey(rs[p]).Ok? && forall q :: 0 <= q < p ==> IdKey(rs[q]) != IdKey(rs[p])
  }

  /** The entry is the one the record at `p` contributes. */
  predicate EntryOf(rs: seq<Json>, p: int, e: Entry)
    requires 0 <= p < |rs|
  {
    IdKey(rs[p]) == Ok(e.key) && rs[p].JObj? &&
    e.id == GetOrNull(rs[p].fields, "id") && HasKey(rs[p].fields, "tag") && e.tag == GetOrNull(rs[p].fields, "tag")
  }

  /** Every id read has a key in the table. */
  predicate AllListed(rs: seq<Json>, es: seq<Entry>) {
    forall i :: 0 <= i < |rs| ==> IdKey(rs[i]).Ok? && Listed(es, IdKey(rs[i]).value)
  }

  /** No key is in the table twice. */
  predicate DistinctEntries(es: seq<Entry>) {
    forall a, b :: 0 <= a < b < |es| ==> es[a].key != es[b].key
  }

  /** The entry comes from the first record with its id. */
  predicate Justified(rs: seq<Json>, e: Entry) {
    exists p :: 0 <= p < |rs| && FirstWithKey(rs, p) && EntryOf(rs, p, e)
  }

  /** What the table holds: every id read has a key in it, keys are distinct, and each
      entry is the one its id's first record contributes — later duplicates are ignored,
      and a duplicate need not even carry a tag. */
  predicate FirstWins(rs: seq<Json>, es: seq<Entry>) {
    AllListed(rs, es) && DistinctEntries(es) && forall e :: 0 <= e < |es| ==> Justified(rs, es[e])
  }

  /** The loop can go on past a record exactly when its id can be read and be a key and,
      for a first occurrence, it carries a tag. */
  predicate Accepted(rs: seq<Json>, i: int)
    requires 0 <= i < |rs|
  {
    IdKey(rs[i]).Ok? && (FirstWithKey(rs, i) ==> HasKey(rs[i].fields, "tag"))
  }

  /** The table is all the record loop can produce, and it fails exactly when some
      record is not accepted. */
  lemma {:induction false} DedupFirstWins(rs: seq<Json>)
    ensures Dedup(rs).Ok? ==> FirstWins(rs, Dedup(rs).value)
    ensures Dedup(rs).Ok? <==> forall i :: 0 <= i < |rs| ==> Accepted(rs, i)
    decreases |rs|
  {
    if |rs| > 0 {
      var n := |rs| - 1;
      var pre, x := rs[..n], rs[n];
      assert rs == pre + [x];
      DedupFirstWins(pre);
      PrefixAccepted(pre, x);
      match Dedup(pre)
      case Err(_) =>
      case Ok(acc) =>
        DedupStep(pre, x, acc);
    }
  }

  /** Acceptance of the records before the last does not depend on the last. */
  lemma PrefixAccepted(pre: seq<Json>, x: Json)
    ensures forall i :: 0 <= i < |pre| ==> (Accepted(pre + [x], i) <==> Accepted(pre, i))
  {
    var rs := pre + [x];
    forall i | 0 <= i < |pre|
      ensures Accepted(rs, i) <==> Accepted(pre, i)
    {
      assert rs[i] == pre[i];
      assert forall q :: 0 <= q < i ==> rs[q] == pre[q];
    }
  }

  /** The last step of `DedupFirstWins`, given the table of the records before the last. */
  lemma DedupStep(pre: seq<Json>, x: Json, acc: seq<Entry>)
    requires FirstWins(pre, acc)
    ensures Record(acc, x).Ok? ==> FirstWins(pre + [x], Record(acc, x).value)
    ensures Record(acc, x).Ok? <==> Accepted(pre + [x], |pre|)
  {
    var rs := pre + [x];
    assert rs[|pre|] == x;
    if IdKey(x).Ok? {
      var k := IdKey(x).value;
      if Listed(acc, k) {
        KnownNotFirst(pre, x, acc);
        JustifiedExtend(pre, x, acc);
        ListedExtend(pre, x, acc, acc);
      } else {
        NewIsFirst(pre, x, acc);
        if HasKey(x.fields, "tag") {
          var en := Entry(k, GetOrNull(x.fields, "id"), GetOrNull(x.fields, "tag"));
          var es := acc + [en];
          assert Record(acc, x) == Ok(es);
          assert EntryOf(rs, |pre|, en);
          JustifiedExtend(pre, x, acc);
          assert forall e :: 0 <= e < |acc| ==> es[e] == acc[e];
          assert es[|acc|] == en;
          ListedExtend(pre, x, acc, es);
        }
      }
    }
  }

  /** An id that is already in the table is not a first occurrence. */
  lemma KnownNotFirst(pre: seq<Json>, x: Json, acc: seq<Entry>)
    requires FirstWins(pre, acc) && IdKey(x).Ok? && Listed(acc, IdKey(x).value)
    ensures !FirstWithKey(pre + [x], |pre|)
  {
    var e :| 0 <= e < |acc| && acc[e].key == IdKey(x).value;
    var p :| 0 <= p < |pre| && FirstWithKey(pre, p) && EntryOf(pre, p, acc[e]);
    assert (pre + [x])[p] == pre[p];
  }

  /** An id that is not in the table is a first occurrence. */
  lemma NewIsFirst(pre: seq<Json>, x: Json, acc: seq<Entry>)
    requires AllListed(pre, acc) && IdKey(x).Ok? && !Listed(acc, IdKey(x).value)
    ensures FirstWithKey(pre + [x], |pre|)
  {
    var rs := pre + [x];
    forall q | 0 <= q < |pre|
      ensures IdKey(rs[q]) != IdKey(rs[|pre|])
    {
      assert rs[q] == pre[q];
    }
  }

  /** Entries justified by the earlier records stay justified. */
  lemma JustifiedExtend(pre: seq<Json>, x: Json, acc: seq<Entry>)
    requires forall e :: 0 <= e < |acc| ==> Justified(pre, acc[e])
    ensures forall e :: 0 <= e < |acc| ==> Justified(pre + [x], acc[e])
  {
    var rs := pre + [x];
    forall e | 0 <= e < |acc|
      ensures Justified(rs, acc[e])
    {
      var p :| 0 <= p < |pre| && FirstWithKey(pre, p) && EntryOf(pre, p, acc[e]);
      assert rs[p] == pre[p];
      assert forall q :: 0 <= q < p ==> rs[q] == pre[q];
      assert FirstWithKey(rs, p);
    }
  }

  /** Keys listed before stay listed in a table that extends the old one, and the last
      record's key is listed once it is in the new table. */
  lemma ListedExtend(pre: seq<Json>, x: Json, acc: seq<Entry>, es: seq<Entry>)
    requires AllListed(pre, acc) && |acc| <= |es| && forall e :: 0 <= e < |acc| ==> es[e] == acc[e]
    requires IdKey(x).Ok? && Listed(es, IdKey(x).value)
    ensures AllListed(pre + [x], es)
  {
    var rs := pre + [x];
    forall i | 0 <= i < |rs|
      ensures IdKey(rs[i]).Ok? && Listed(es, IdKey(rs[i]).value)
    {
      if i < |pre| {
        assert rs[i] == pre[i];
        var e :| 0 <= e < |acc| && acc[e].key == IdKey(pre[i]).value;
        assert es[e] == acc[e];
      }
    }
  }

  // ================================================================ one tagger run

  /** The run of one instance on `n = |data|` records, up to the tag table: the range,
      the batches, the labels of each batch in order, and the first-wins table. */
  function Run(d: Distribution, data: seq<Json>, f: Labeller): (r: Result<seq<Entry>>)
    ensures r.Ok? ==> WorkRange(d, |data|).Ok?
  {
    match WorkRange(d, |data|)
    case Err(e) => Err(e)
    case Ok((from, stop)) =>
      match Batches(from, stop, SavingOf(d, from, stop, "").step)
      case Err(e) => Err(e)
      case Ok(bs) => Dedup(Labelled(f, data, bs))
  }

  /** A run with the whole range as one batch fails on an empty range: `range(a, a, 0)`
      raises `ValueError`. One record split between two instances is enough. */
  lemma EmptyRangeFails(data: seq<Json>, f: Labeller)
    requires |data| == 1
    ensures Run(Distribution(0, 2, None, None, -1), data, f) == Err(ValueError)
  {
    var d := Distribution(0, 2, None, None, -1);
    assert FloorDiv(1, 2) == 0;
    assert WorkRange(d, |data|) == Ok((0, 0));
  }

  /** The batch size of the corrected run: a whole-range batch is at least one record
      long, so an empty range has no batches instead of a zero step. */
  function CorrectedStep(d: Distribution, from: int, stop: int): (step: int)
    ensures d.saveStep == -1 ==> step > 0
    ensures d.saveStep == -1 && from < stop ==> step == stop - from
  {
    if d.saveStep == -1 then (if stop - from < 1 then 1 else stop - from) else d.saveStep
  }

  function CorrectedRun(d: Distribution, data: seq<Json>, f: Labeller): (r: Result<seq<Entry>>)
    ensures r.Ok? ==> WorkRange(d, |data|).Ok?
    ensures d.saveStep == -1 && WorkRange(d, |data|).Ok? && WorkRange(d, |data|).value.1 <= WorkRange(d, |data|).value.0
            ==> r == Ok([])
  {
    match WorkRange(d, |data|)
    case Err(e) => Err(e)
    case Ok((from, stop)) =>
      match Batches(from, stop, CorrectedStep(d, from, stop))
      case Err(e) => Err(e)
      case Ok(bs) => Dedup(Labelled(f, data, bs))
  }

  /** The corrected run tags exactly the records of its range whenever the range starts
      inside the data: for a whole-range batch and for every positive batch size, the
      table is the first-wins table of the labels of `data[from:to]`. */
  lemma CorrectedRunTagsRange(d: Distribution, data: seq<Json>, f: Labeller)
    requires d.num != 0 && (d.saveStep == -1 || d.saveStep > 0)
    requires WorkRange(d, |data|).value.0 >= 0 && WorkRange(d, |data|).value.1 >= 0
    ensures var (from, stop) := WorkRange(d, |data|).value;
            CorrectedRun(d, data, f) == Dedup(Map(f, PySlice(data, from, stop)))
  {
    var (from, stop) := WorkRange(d, |data|).value;
    AscendingCovers(f, data, from, stop, CorrectedStep(d, from, stop));
  }

  /** Wherever the range is not empty the correction changes nothing. */
  lemma CorrectedAgrees(d: Distribution, data: seq<Json>, f: Labeller)
    requires d.num != 0 && WorkRange(d, |data|).value.0 < WorkRange(d, |data|).value.1
    ensures CorrectedRun(d, data, f) == Run(d, data, f)
  {
  }

  /** On the input that breaks the run as written, the corrected run writes an empty
      table. */
  lemma EmptyRangeCorrected(data: seq<Json>, f: Labeller)
    requires |data| == 1
    ensures CorrectedRun(Distribution(0, 2, None, None, -1), data, f) == Ok([])
  {
    var d := Distribution(0, 2, None, None, -1);
    assert FloorDiv(1, 2) == 0;
    assert WorkRange(d, |data|) == Ok((0, 0));
  }
}

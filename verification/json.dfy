/** A closed model of the JSON values the tool-call data is made of, together with the
    Python operations the code applies to them (`==`, `in`, truthiness, `len`, `dict.get`,
    item assignment).

    Objects keep their key order, because `json.dumps` without `sort_keys` is
    order-sensitive; the data the code reads has distinct keys, and `Assign` keeps them
    distinct. Floats are exact reals. */
module JsonValues {
  import opened Wrappers
  import Text

  datatype Json =
    | JNull
    | JBool(b: bool)
    | JInt(i: int)
    | JFloat(r: real)
    | JStr(s: string)
    | JList(elems: seq<Json>)
    | JObj(fields: seq<Field>)

  datatype Field = Field(key: string, val: Json)

  /** Number of nodes, used as the termination measure of every recursion over values. */
  function Size(j: Json): (n: nat)
    ensures n >= 1
  {
    match j
    case JList(es) => 1 + SizeSeq(es)
    case JObj(fs) => 1 + SizeFields(fs)
    case _ => 1
  }

  function SizeSeq(xs: seq<Json>): nat {
    if |xs| == 0 then 0 else Size(xs[0]) + SizeSeq(xs[1..])
  }

  function SizeFields(fs: seq<Field>): nat {
    if |fs| == 0 then 0 else Size(fs[0].val) + SizeFields(fs[1..])
  }

  /** An element of a list is smaller than the list. */
  lemma {:induction false} SizeSeqMember(xs: seq<Json>, i: nat)
    requires i < |xs|
    ensures Size(xs[i]) <= SizeSeq(xs)
  {
    if i > 0 {
      SizeSeqMember(xs[1..], i - 1);
    }
  }

  /** A field value is smaller than the fields holding it. */
  lemma {:induction false} SizeFieldsMember(fs: seq<Field>, i: nat)
    requires i < |fs|
    ensures Size(fs[i].val) <= SizeFields(fs)
  {
    if i > 0 {
      SizeFieldsMember(fs[1..], i - 1);
    }
  }

  // ---------------------------------------------------------------- dictionaries

  function KeySeq(fs: seq<Field>): (ks: seq<string>)
    ensures |ks| == |fs| && forall i :: 0 <= i < |fs| ==> ks[i] == fs[i].key
  {
    if |fs| == 0 then [] else [fs[0].key] + KeySeq(fs[1..])
  }

  predicate HasKey(fs: seq<Field>, k: string) {
    exists i :: 0 <= i < |fs| && fs[i].key == k
  }

  predicate DistinctKeys(fs: seq<Field>) {
    forall i, j :: 0 <= i < j < |fs| ==> fs[i].key != fs[j].key
  }

  /** The position of the first field named `k`. */
  function FirstKeyIndex(fs: seq<Field>, k: string): (i: nat)
    requires HasKey(fs, k)
    ensures i < |fs| && fs[i].key == k && forall j :: 0 <= j < i ==> fs[j].key != k
  {
    if fs[0].key == k then 0
    else
      assert HasKey(fs[1..], k) by {
        var i :| 0 <= i < |fs| && fs[i].key == k;
        assert fs[1..][i - 1].key == k;
      }
      FirstKeyIndex(fs[1..], k) + 1
  }

  /** The first position of a key is determined by the keys up to it. */
  lemma FirstKeyIndexUnique(fs: seq<Field>, k: string, i: nat)
    requires i < |fs| && fs[i].key == k && forall j :: 0 <= j < i ==> fs[j].key != k
    ensures FirstKeyIndex(fs, k) == i
  {
    var f := FirstKeyIndex(fs, k);
    assert !(f < i) && !(i < f);
  }

  /** `d[k]`: the value under key `k`, if any (the first field named `k`). */
  function Lookup(fs: seq<Field>, k: string): (r: Option<Json>)
    ensures r.None? <==> !HasKey(fs, k)
  {
    if HasKey(fs, k) then Some(fs[FirstKeyIndex(fs, k)].val) else None
  }

  /** `d.get(k)` on a dict: the value, or `None` when the key is missing. */
  function GetOrNull(fs: seq<Field>, k: string): Json {
    match Lookup(fs, k)
    case Some(v) => v
    case None => JNull
  }

  /** `d[k] = v`: replaces the value of an existing key in place, or appends a new key. */
  function Assign(fs: seq<Field>, k: string, v: Json): (r: seq<Field>)
    ensures HasKey(fs, k) ==> |r| == |fs| && forall i :: 0 <= i < |fs| ==> r[i].key == fs[i].key
    ensures !HasKey(fs, k) ==> r == fs + [Field(k, v)]
  {
    if HasKey(fs, k) then fs[FirstKeyIndex(fs, k) := Field(k, v)] else fs + [Field(k, v)]
  }

  /** After `d[k] = v`, key `k` holds `v` and every other key is unchanged; distinct keys
      stay distinct. */
  lemma AssignLookup(fs: seq<Field>, k: string, v: Json)
    ensures Lookup(Assign(fs, k, v), k) == Some(v)
    ensures forall k' :: k' != k ==> Lookup(Assign(fs, k, v), k') == Lookup(fs, k')
    ensures DistinctKeys(fs) ==> DistinctKeys(Assign(fs, k, v))
  {
    var r := Assign(fs, k, v);
    if HasKey(fs, k) {
      var i := FirstKeyIndex(fs, k);
      FirstKeyIndexUnique(r, k, i);
      forall k' | k' != k
        ensures Lookup(r, k') == Lookup(fs, k')
      {
        assert HasKey(r, k') <==> HasKey(fs, k') by {
          if HasKey(fs, k') {
            var j :| 0 <= j < |fs| && fs[j].key == k';
            assert r[j].key == k';
          }
          if HasKey(r, k') {
            var j :| 0 <= j < |r| && r[j].key == k';
            assert fs[j].key == k';
          }
        }
        if HasKey(fs, k') {
          FirstKeyIndexUnique(r, k', FirstKeyIndex(fs, k'));
        }
      }
    } else {
      FirstKeyIndexUnique(r, k, |fs|);
      forall k' | k' != k
        ensures Lookup(r, k') == Lookup(fs, k')
      {
        if HasKey(fs, k') {
          FirstKeyIndexUnique(r, k', FirstKeyIndex(fs, k'));
        }
        assert HasKey(r, k') ==> HasKey(fs, k') by {
          if HasKey(r, k') {
            var j :| 0 <= j < |r| && r[j].key == k';
            assert j < |fs|;
          }
        }
      }
    }
  }

  /** After `d[k] = v` every value is `v` or the value that stood at the same place. */
  lemma AssignValues(fs: seq<Field>, k: string, v: Json)
    ensures forall i :: 0 <= i < |Assign(fs, k, v)| ==>
              Assign(fs, k, v)[i].val == v || (i < |fs| && Assign(fs, k, v)[i].val == fs[i].val)
  {
  }

  /** A lookup past a first field with another key. */
  lemma LookupTail(fs: seq<Field>, k: string)
    requires |fs| > 0 && fs[0].key != k
    ensures Lookup(fs, k) == Lookup(fs[1..], k)
  {
    if HasKey(fs, k) {
      var i := FirstKeyIndex(fs, k);
      assert fs[1..][i - 1].key == k;
      FirstKeyIndexUnique(fs[1..], k, i - 1);
    } else {
      forall j | 0 <= j < |fs[1..]|
        ensures fs[1..][j].key != k
      {
        assert fs[1..][j] == fs[j + 1];
      }
    }
  }

  // ---------------------------------------------------------------- Python semantics

  predicate IsNumber(j: Json) {
    j.JBool? || j.JInt? || j.JFloat?
  }

  /** The numeric value Python compares numbers (and bools) by. */
  function NumVal(j: Json): real
    requires IsNumber(j)
  {
    match j
    case JBool(b) => if b then 1.0 else 0.0
    case JInt(i) => i as real
    case JFloat(r) => r
  }

  /** Python `a == b`: numbers (bools included) compare by value, lists elementwise, dicts
      by key set and per-key value. */
  function PyEq(a: Json, b: Json): bool
    decreases Size(a), 0
  {
    if IsNumber(a) || IsNumber(b) then IsNumber(a) && IsNumber(b) && NumVal(a) == NumVal(b)
    else match (a, b)
      case (JNull, JNull) => true
      case (JStr(x), JStr(y)) => x == y
      case (JList(xs), JList(ys)) => ListEq(xs, ys)
      case (JObj(fa), JObj(fb)) =>
        (set i | 0 <= i < |fa| :: fa[i].key) == (set i | 0 <= i < |fb| :: fb[i].key) && FieldsIn(fa, fb)
      case _ => false
  }

  function ListEq(xs: seq<Json>, ys: seq<Json>): bool
    decreases SizeSeq(xs), 1
  {
    |xs| == |ys| && (|xs| == 0 || (PyEq(xs[0], ys[0]) && ListEq(xs[1..], ys[1..])))
  }

  /** Every field of `fa` has a `PyEq` value under the same key in `fb`. */
  function FieldsIn(fa: seq<Field>, fb: seq<Field>): bool
    decreases SizeFields(fa), 1
  {
    |fa| == 0 || (HasKey(fb, fa[0].key) && PyEq(fa[0].val, GetOrNull(fb, fa[0].key)) && FieldsIn(fa[1..], fb))
  }

  /** Python truthiness. */
  predicate Truthy(j: Json) {
    match j
    case JNull => false
    case JBool(b) => b
    case JInt(i) => i != 0
    case JFloat(r) => r != 0.0
    case JStr(s) => s != ""
    case JList(es) => |es| > 0
    case JObj(fs) => |fs| > 0
  }

  /** Python `x in c`: list membership under `==`, substring test on strings, key test on
      dicts; other containers raise `TypeError`, as does a non-string searched in a string
      or an unhashable value searched in a dict. */
  function PyIn(x: Json, c: Json): (r: Result<bool>)
    ensures c.JList? ==> r == Ok(exists i :: 0 <= i < |c.elems| && PyEq(x, c.elems[i]))
    ensures c.JStr? && x.JStr? ==> r == Ok(Text.Contains(c.s, x.s))
    ensures c.JObj? && x.JStr? ==> r == Ok(HasKey(c.fields, x.s))
    ensures r.Err? <==> !(c.JList? || c.JStr? || c.JObj?) || (c.JStr? && !x.JStr?)
                        || (c.JObj? && (x.JList? || x.JObj?))
  {
    match c
    case JList(es) => Ok(exists i :: 0 <= i < |es| && PyEq(x, es[i]))
    case JStr(s) => if x.JStr? then Ok(Text.Contains(s, x.s)) else Err(TypeError)
    case JObj(fs) =>
      if x.JList? || x.JObj? then Err(TypeError)
      else Ok(x.JStr? && HasKey(fs, x.s))
    case _ => Err(TypeError)
  }

  /** Python `len(x)`; sized values only. */
  function PyLen(j: Json): (r: Result<nat>)
    ensures r.Ok? <==> j.JStr? || j.JList? || j.JObj?
  {
    match j
    case JStr(s) => Ok(|s|)
    case JList(es) => Ok(|es|)
    case JObj(fs) => Ok(|fs|)
    case _ => Err(TypeError)
  }

  /** The elements Python's `for x in j` visits: list elements, dict keys, or the
      one-character strings of a string; other values are not iterable. */
  function Items(j: Json): (r: Result<seq<Json>>)
    ensures r.Ok? <==> j.JStr? || j.JList? || j.JObj?
    ensures r.Ok? ==> PyLen(j) == Ok(|r.value|)
    ensures j.JList? ==> r == Ok(j.elems)
  {
    match j
    case JList(es) => Ok(es)
    case JObj(fs) => Ok(seq(|fs|, i requires 0 <= i < |fs| => JStr(fs[i].key)))
    case JStr(s) => Ok(seq(|s|, i requires 0 <= i < |s| => JStr([s[i]])))
    case _ => Err(TypeError)
  }

  /** Python `str(j)`, which `f"..."` formatting puts into names: a string as it is,
      anything else as its `repr`. */
  function Show(j: Json): string {
    match j
    case JStr(s) => s
    case _ => Repr(j)
  }

  /** Python `repr(j)`: `None`, `True`, numbers as written, strings in single quotes,
      `[a, b]` and `{'k': v}`. */
  function Repr(j: Json): string
    decreases Size(j), 0
  {
    match j
    case JNull => "None"
    case JBool(b) => if b then "True" else "False"
    case JInt(i) => Text.IntToString(i)
    case JFloat(r) => Text.RealToString(r)
    case JStr(s) => "'" + s + "'"
    case JList(es) => "[" + ReprSeq(es) + "]"
    case JObj(fs) => "{" + ReprFields(fs) + "}"
  }

  function ReprSeq(es: seq<Json>): string
    decreases SizeSeq(es), 1
  {
    if |es| == 0 then ""
    else if |es| == 1 then Repr(es[0])
    else Repr(es[0]) + ", " + ReprSeq(es[1..])
  }

  function ReprFields(fs: seq<Field>): string
    decreases SizeFields(fs), 1
  {
    if |fs| == 0 then ""
    else
      var item := "'" + fs[0].key + "': " + Repr(fs[0].val);
      if |fs| == 1 then item else item + ", " + ReprFields(fs[1..])
  }

  /** Names that differ print differently: two floats with different fractions. */
  lemma ShowExamples()
    ensures Show(JFloat(1.5)) == "1.5" && Show(JFloat(2.5)) == "2.5"
  {
    assert Text.FracDigits(0.5, 17) == "5" by {
      assert Text.FracDigits(0.0, 16) == "";
    }
  }

  /** A whole float keeps its `.0`, so it prints apart from the integer. */
  lemma ShowWholeExamples()
    ensures Show(JFloat(2.0)) == "2.0" && Show(JInt(2)) == "2"
  {
    assert Text.FracDigits(0.0, 17) == "";
  }

  /** A list prints its elements' `repr`s, strings quoted. */
  lemma ShowListExample()
    ensures Show(JList([JInt(1), JStr("a")])) == "[1, 'a']"
  {
  }

  /** The key `json.dumps` writes for the dict key `k`: a string as it is, `null`, `true`,
      `false`, or the number's `repr`. Lists and dicts are unhashable and cannot be keys. */
  function KeyText(k: Json): (r: Option<string>)
    ensures r.None? <==> k.JList? || k.JObj?
    ensures k.JStr? ==> r == Some(k.s)
  {
    match k
    case JStr(s) => Some(s)
    case JNull => Some("null")
    case JBool(b) => Some(if b then "true" else "false")
    case JInt(i) => Some(Text.IntToString(i))
    case JFloat(r) => Some(Text.RealToString(r))
    case _ => None
  }
}

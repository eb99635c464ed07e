/** The BUTTON converter of the dataset tools: a conversation in BUTTON's chat format (a
    system message listing the tools, user turns, assistant turns that embed `<call>` and
    `<final>` blocks, and tool messages) becomes a sample in the hub's message format, with
    tool-call parameters that repeat an earlier tool result rewritten as `<link>` references
    to it. Regex search and `json.loads` of whole strings are parameters of the model. */
module Button {
  import opened Wrappers
  import opened JsonValues
  import opened Text
  import opened RawSamples

  // ================================================================ leaf paths

  /** A dotted path into a tool result and the scalar found there. */
  datatype Leaf = Leaf(path: string, value: Json)

  predicate IsScalar(j: Json) {
    !j.JList? && !j.JObj?
  }

  /** `f"{prefix}.{k}" if prefix else k`. */
  function Extend(prefix: string, k: string): string {
    if prefix == "" then k else prefix + "." + k
  }

  /** `flatten_leaf_paths(d, prefix)`: one leaf per scalar reached through dict keys and
      list indices, in traversal order. */
  function Flatten(d: Json, prefix: string): (r: seq<Leaf>)
    ensures forall i :: 0 <= i < |r| ==> IsScalar(r[i].value)
    ensures IsScalar(d) ==> r == [Leaf(prefix, d)]
    decreases Size(d), 0
  {
    match d
    case JObj(fs) => FlattenFields(fs, prefix)
    case JList(es) => FlattenItems(es, prefix, 0)
    case _ => [Leaf(prefix, d)]
  }

  function FlattenFields(fs: seq<Field>, prefix: string): (r: seq<Leaf>)
    ensures forall i :: 0 <= i < |r| ==> IsScalar(r[i].value)
    ensures |fs| == 0 ==> r == []
    decreases SizeFields(fs), 1
  {
    if |fs| == 0 then []
    else Flatten(fs[0].val, Extend(prefix, fs[0].key)) + FlattenFields(fs[1..], prefix)
  }

  /** The leaves of list items `es`, the first of which has index `start`. */
  function FlattenItems(es: seq<Json>, prefix: string, start: nat): (r: seq<Leaf>)
    ensures forall i :: 0 <= i < |r| ==> IsScalar(r[i].value)
    ensures |es| == 0 ==> r == []
    decreases SizeSeq(es), 1
  {
    if |es| == 0 then []
    else Flatten(es[0], Extend(prefix, NatToString(start))) + FlattenItems(es[1..], prefix, start + 1)
  }

  /** The scalars of a leaf list, in order. */
  function Values(leaves: seq<Leaf>): (vs: seq<Json>)
    ensures |vs| == |leaves| && forall i :: 0 <= i < |leaves| ==> vs[i] == leaves[i].value
  {
    if |leaves| == 0 then [] else [leaves[0].value] + Values(leaves[1..])
  }

  lemma ValuesAppend(a: seq<Leaf>, b: seq<Leaf>)
    ensures Values(a + b) == Values(a) + Values(b)
  {
  }

  /** The prefix only names the leaves: the scalars found, and how many, do not depend on
      it. */
  lemma {:induction false} FlattenValues(d: Json, p: string, q: string)
    ensures Values(Flatten(d, p)) == Values(Flatten(d, q))
    decreases Size(d), 0
  {
    match d
    case JObj(fs) => FlattenFieldsValues(fs, p, q);
    case JList(es) => FlattenItemsValues(es, p, q, 0);
    case _ =>
  }

  lemma {:induction false} FlattenFieldsValues(fs: seq<Field>, p: string, q: string)
    ensures Values(FlattenFields(fs, p)) == Values(FlattenFields(fs, q))
    decreases SizeFields(fs), 1
  {
    if |fs| > 0 {
      FlattenValues(fs[0].val, Extend(p, fs[0].key), Extend(q, fs[0].key));
      FlattenFieldsValues(fs[1..], p, q);
      ValuesAppend(Flatten(fs[0].val, Extend(p, fs[0].key)), FlattenFields(fs[1..], p));
      ValuesAppend(Flatten(fs[0].val, Extend(q, fs[0].key)), FlattenFields(fs[1..], q));
    }
  }

  lemma {:induction false} FlattenItemsValues(es: seq<Json>, p: string, q: string, start: nat)
    ensures Values(FlattenItems(es, p, start)) == Values(FlattenItems(es, q, start))
    decreases SizeSeq(es), 1
  {
    if |es| > 0 {
      FlattenValues(es[0], Extend(p, NatToString(start)), Extend(q, NatToString(start)));
      FlattenItemsValues(es[1..], p, q, start + 1);
      ValuesAppend(Flatten(es[0], Extend(p, NatToString(start))), FlattenItems(es[1..], p, start + 1));
      ValuesAppend(Flatten(es[0], Extend(q, NatToString(start))), FlattenItems(es[1..], q, start + 1));
    }
  }

  /** `path` is `prefix` itself or lies below it. */
  predicate Below(path: string, prefix: string) {
    path == prefix || StartsWith(path, prefix + ".")
  }

  lemma BelowExtend(path: string, prefix: string, k: string)
    requires prefix != "" && Below(path, Extend(prefix, k))
    ensures Below(path, prefix)
  {
    var e := prefix + "." + k;
    assert e[..|prefix| + 1] == prefix + ".";
    if path != e {
      assert path[..|e| + 1] == e + ".";
      assert path[..|prefix| + 1] == path[..|e| + 1][..|prefix| + 1];
    }
  }

  /** Under a non-empty prefix every leaf path lies below that prefix. */
  lemma {:induction false} FlattenBelow(d: Json, prefix: string)
    requires prefix != ""
    ensures forall i :: 0 <= i < |Flatten(d, prefix)| ==> Below(Flatten(d, prefix)[i].path, prefix)
    decreases Size(d), 0
  {
    match d
    case JObj(fs) => FlattenFieldsBelow(fs, prefix);
    case JList(es) => FlattenItemsBelow(es, prefix, 0);
    case _ =>
  }

  lemma {:induction false} FlattenFieldsBelow(fs: seq<Field>, prefix: string)
    requires prefix != ""
    ensures forall i :: 0 <= i < |FlattenFields(fs, prefix)| ==> Below(FlattenFields(fs, prefix)[i].path, prefix)
    decreases SizeFields(fs), 1
  {
    if |fs| > 0 {
      var e := Extend(prefix, fs[0].key);
      var a := Flatten(fs[0].val, e);
      FlattenBelow(fs[0].val, e);
      FlattenFieldsBelow(fs[1..], prefix);
      forall i | 0 <= i < |a|
        ensures Below(a[i].path, prefix)
      {
        BelowExtend(a[i].path, prefix, fs[0].key);
      }
    }
  }

  lemma {:induction false} FlattenItemsBelow(es: seq<Json>, prefix: string, start: nat)
    requires prefix != ""
    ensures forall i :: 0 <= i < |FlattenItems(es, prefix, start)| ==> Below(FlattenItems(es, prefix, start)[i].path, prefix)
    decreases SizeSeq(es), 1
  {
    if |es| > 0 {
      var e := Extend(prefix, NatToString(start));
      var a := Flatten(es[0], e);
      FlattenBelow(es[0], e);
      FlattenItemsBelow(es[1..], prefix, start + 1);
      forall i | 0 <= i < |a|
        ensures Below(a[i].path, prefix)
      {
        BelowExtend(a[i].path, prefix, NatToString(start));
      }
    }
  }

  /** `".".join(full_path.split(".")[:2])`: the first two segments of a path. */
  function TopCall(path: string): string {
    var parts := Split(path, '.');
    Join(".", parts[..if |parts| < 2 then |parts| else 2])
  }

  /** `s.split(c)` at the first separator. */
  lemma SplitAt(s: string, c: char, i: nat)
    requires i < |s| && s[i] == c && c !in s[..i]
    ensures Split(s, c) == [s[..i]] + Split(s[i + 1..], c)
  {
    IndexOfAt(s, c, i);
  }

  /** Below `n.k`, the path's first two dot-separated parts are `n` and `k`. */
  lemma SplitBelow(path: string, n: string, k: string)
    requires '.' !in n && '.' !in k && Below(path, n + "." + k)
    ensures |Split(path, '.')| >= 2 && Split(path, '.')[..2] == [n, k]
  {
    BelowParts(path, n, k);
    var tail := path[|n| + 1..];
    FirstPart(path, n);
    FirstPart(tail, k);
  }

  /** A path below `n.k` starts with `n.`, and what follows is `k` or lies below it. */
  lemma BelowParts(path: string, n: string, k: string)
    requires Below(path, n + "." + k)
    ensures StartsWith(path, n + ".")
    ensures var tail := path[|n| + 1..]; tail == k || StartsWith(tail, k + ".")
  {
    var id := n + "." + k;
    assert path[..|id|] == id;
    assert path[..|n| + 1] == path[..|id|][..|n| + 1] == id[..|n| + 1] == n + ".";
    var tail := path[|n| + 1..];
    if path != id {
      assert path[..|id| + 1] == id + ".";
      assert tail[..|k| + 1] == path[|n| + 1..|id| + 1] == (id + ".")[|n| + 1..] == k + ".";
    } else {
      assert tail == id[|n| + 1..] == k;
    }
  }

  /** A string that is `w` or starts with `w.`, where `w` holds no dot, splits into `w`
      followed by the parts of what comes after the dot. */
  lemma FirstPart(s: string, w: string)
    requires '.' !in w && (s == w || StartsWith(s, w + "."))
    ensures Split(s, '.')[0] == w
    ensures s != w ==> Split(s, '.') == [w] + Split(s[|w| + 1..], '.')
  {
    if s != w {
      assert s[..|w|] == (w + ".")[..|w|] == w && s[|w|] == '.';
      SplitAt(s, '.', |w|);
    }
  }

  /** A result id `n.k` with dot-free parts is the top call of every path below it. */
  lemma TopCallBelow(path: string, n: string, k: string)
    requires '.' !in n && '.' !in k && Below(path, n + "." + k)
    ensures TopCall(path) == n + "." + k
  {
    SplitBelow(path, n, k);
    assert Join(".", [n, k]) == n + "." + Join(".", [k]);
  }

  // ================================================================ links

  /** `f"<link>{path}</link>"`. */
  function Link(path: string): string {
    "<link>" + path + "</link>"
  }

  /** `leaves[i]` is the first leaf whose value equals `param`. */
  predicate FirstMatch(param: Json, leaves: seq<Leaf>, i: nat)
    requires i < |leaves|
  {
    PyEq(param, leaves[i].value) && forall j :: 0 <= j < i ==> !PyEq(param, leaves[j].value)
  }

  /** `replace_param_with_link(param, leaves)`: the link to the first leaf equal to `param`
      and that leaf's top call, or `param` unchanged and `None`. */
  function ReplaceParam(param: Json, leaves: seq<Leaf>): (r: (Json, Option<string>))
    ensures r.1.None? <==> forall i :: 0 <= i < |leaves| ==> !PyEq(param, leaves[i].value)
    ensures r.1.None? ==> r.0 == param
    ensures r.1.Some? ==> exists i :: 0 <= i < |leaves| && FirstMatch(param, leaves, i) &&
                                      r == (JStr(Link(leaves[i].path)), Some(TopCall(leaves[i].path)))
    decreases |leaves|
  {
    if |leaves| == 0 then (param, None)
    else if PyEq(param, leaves[0].value) then
      assert FirstMatch(param, leaves, 0);
      (JStr(Link(leaves[0].path)), Some(TopCall(leaves[0].path)))
    else
      assert forall j :: 0 <= j < |leaves| - 1 ==> leaves[1..][j] == leaves[j + 1];
      var r := ReplaceParam(param, leaves[1..]);
      assert r.1.Some? ==> exists i :: 0 <= i < |leaves| && FirstMatch(param, leaves, i) &&
                                       r == (JStr(Link(leaves[i].path)), Some(TopCall(leaves[i].path))) by {
        if r.1.Some? {
          var i :| 0 <= i < |leaves| - 1 && FirstMatch(param, leaves[1..], i) &&
                   r == (JStr(Link(leaves[1..][i].path)), Some(TopCall(leaves[1..][i].path)));
          assert FirstMatch(param, leaves, i + 1);
        }
      }
      r
  }

  /** Two values with the same dict keys (in order), the same list lengths, and scalars in
      the same places. */
  predicate SameShape(a: Json, b: Json)
    decreases Size(a), 0
  {
    match a
    case JObj(fa) => b.JObj? && SameFields(fa, b.fields)
    case JList(ea) => b.JList? && SameItems(ea, b.elems)
    case _ => IsScalar(b)
  }

  predicate SameFields(fa: seq<Field>, fb: seq<Field>)
    decreases SizeFields(fa), 1
  {
    |fa| == |fb| && (|fa| == 0 || (fa[0].key == fb[0].key && SameShape(fa[0].val, fb[0].val) && SameFields(fa[1..], fb[1..])))
  }

  predicate SameItems(ea: seq<Json>, eb: seq<Json>)
    decreases SizeSeq(ea), 1
  {
    |ea| == |eb| && (|ea| == 0 || (SameShape(ea[0], eb[0]) && SameItems(ea[1..], eb[1..])))
  }

  /** The parameters after `process_param`: every scalar leaf replaced through
      `ReplaceParam`, dicts and lists rebuilt around them. */
  function Rewrite(param: Json, leaves: seq<Leaf>): (r: Json)
    ensures SameShape(param, r)
    ensures IsScalar(param) ==> r == ReplaceParam(param, leaves).0
    decreases Size(param), 0
  {
    match param
    case JObj(fs) => JObj(RewriteFields(fs, leaves))
    case JList(es) => JList(RewriteItems(es, leaves))
    case _ => ReplaceParam(param, leaves).0
  }

  function RewriteFields(fs: seq<Field>, leaves: seq<Leaf>): (r: seq<Field>)
    ensures SameFields(fs, r)
    decreases SizeFields(fs), 1
  {
    if |fs| == 0 then []
    else
      var r := [Field(fs[0].key, Rewrite(fs[0].val, leaves))] + RewriteFields(fs[1..], leaves);
      assert r[1..] == RewriteFields(fs[1..], leaves);
      r
  }

  function RewriteItems(es: seq<Json>, leaves: seq<Leaf>): (r: seq<Json>)
    ensures SameItems(es, r)
    decreases SizeSeq(es), 1
  {
    if |es| == 0 then []
    else
      var r := [Rewrite(es[0], leaves)] + RewriteItems(es[1..], leaves);
      assert r[1..] == RewriteItems(es[1..], leaves);
      r
  }

  /** The dependency a scalar contributes: the top call of its first matching leaf, or ""
      (nothing, as `if dep:` skips an empty one) when no leaf matches. */
  function Dep(x: Json, leaves: seq<Leaf>): string {
    match ReplaceParam(x, leaves).1
    case Some(t) => t
    case None => ""
  }

  /** The dependencies `process_param` adds to `depend_on` while rewriting `param`. */
  function Deps(param: Json, leaves: seq<Leaf>): set<string>
    decreases Size(param), 0
  {
    match param
    case JObj(fs) => DepsFields(fs, leaves)
    case JList(es) => DepsItems(es, leaves)
    case _ => if |Dep(param, leaves)| > 0 then {Dep(param, leaves)} else {}
  }

  function DepsFields(fs: seq<Field>, leaves: seq<Leaf>): set<string>
    decreases SizeFields(fs), 1
  {
    if |fs| == 0 then {} else Deps(fs[0].val, leaves) + DepsFields(fs[1..], leaves)
  }

  function DepsItems(es: seq<Json>, leaves: seq<Leaf>): set<string>
    decreases SizeSeq(es), 1
  {
    if |es| == 0 then {} else Deps(es[0], leaves) + DepsItems(es[1..], leaves)
  }

  /** The non-empty dependencies of the scalars `xs`. */
  function DepsOf(xs: seq<Json>, leaves: seq<Leaf>): set<string> {
    set i | 0 <= i < |xs| && |Dep(xs[i], leaves)| > 0 :: Dep(xs[i], leaves)
  }

  lemma DepsOfAppend(a: seq<Json>, b: seq<Json>, leaves: seq<Leaf>)
    ensures DepsOf(a + b, leaves) == DepsOf(a, leaves) + DepsOf(b, leaves)
  {
    var ab := a + b;
    forall d | d in DepsOf(ab, leaves)
      ensures d in DepsOf(a, leaves) + DepsOf(b, leaves)
    {
      var i :| 0 <= i < |ab| && |Dep(ab[i], leaves)| > 0 && d == Dep(ab[i], leaves);
      if i >= |a| {
        assert ab[i] == b[i - |a|];
      }
    }
    forall d | d in DepsOf(b, leaves)
      ensures d in DepsOf(ab, leaves)
    {
      var i :| 0 <= i < |b| && |Dep(b[i], leaves)| > 0 && d == Dep(b[i], leaves);
      assert ab[|a| + i] == b[i];
    }
    forall d | d in DepsOf(a, leaves)
      ensures d in DepsOf(ab, leaves)
    {
      var i :| 0 <= i < |a| && |Dep(a[i], leaves)| > 0 && d == Dep(a[i], leaves);
      assert ab[i] == a[i];
    }
  }

  /** `depend_on` gains exactly the dependencies of the parameter's scalar leaves, found in
      the order `flatten_leaf_paths` lists them under any prefix. */
  lemma {:induction false} DepsOfLeaves(param: Json, leaves: seq<Leaf>, p: string)
    ensures Deps(param, leaves) == DepsOf(Values(Flatten(param, p)), leaves)
    decreases Size(param), 0
  {
    match param
    case JObj(fs) => DepsFieldsOfLeaves(fs, leaves, p);
    case JList(es) => DepsItemsOfLeaves(es, leaves, p, 0);
    case _ =>
      assert Values(Flatten(param, p)) == [param];
  }

  lemma {:induction false} DepsFieldsOfLeaves(fs: seq<Field>, leaves: seq<Leaf>, p: string)
    ensures DepsFields(fs, leaves) == DepsOf(Values(FlattenFields(fs, p)), leaves)
    decreases SizeFields(fs), 1
  {
    if |fs| == 0 {
      assert Values(FlattenFields(fs, p)) == [];
    } else {
      var a := Flatten(fs[0].val, Extend(p, fs[0].key));
      var b := FlattenFields(fs[1..], p);
      DepsOfLeaves(fs[0].val, leaves, Extend(p, fs[0].key));
      DepsFieldsOfLeaves(fs[1..], leaves, p);
      ValuesAppend(a, b);
      DepsOfAppend(Values(a), Values(b), leaves);
    }
  }

  lemma {:induction false} DepsItemsOfLeaves(es: seq<Json>, leaves: seq<Leaf>, p: string, start: nat)
    ensures DepsItems(es, leaves) == DepsOf(Values(FlattenItems(es, p, start)), leaves)
    decreases SizeSeq(es), 1
  {
    if |es| == 0 {
      assert Values(FlattenItems(es, p, start)) == [];
    } else {
      var a := Flatten(es[0], Extend(p, NatToString(start)));
      var b := FlattenItems(es[1..], p, start + 1);
      DepsOfLeaves(es[0], leaves, Extend(p, NatToString(start)));
      DepsItemsOfLeaves(es[1..], leaves, p, start + 1);
      ValuesAppend(a, b);
      DepsOfAppend(Values(a), Values(b), leaves);
    }
  }

  /** A tool call in the converted sample; `depend_on` is a set because the code builds it
      as one and lists it in Python's set order. */
  datatype Call = Call(name: Json, parameters: Json, dependOn: set<string>)

  /** All leaves of the results seen so far, each result flattened under its id. */
  function AllLeaves(results: seq<Field>): seq<Leaf> {
    if |results| == 0 then [] else Flatten(results[0].val, results[0].key) + AllLeaves(results[1..])
  }

  /** `process_tool_call_with_leaf_links(calls, results)`: the parameters keep their shape
      with scalars rewritten to links, and `depend_on` keeps its entries and gains those of
      the links. */
  function ProcessCalls(calls: seq<Call>, results: seq<Field>): (r: seq<Call>)
    ensures |r| == |calls|
    ensures forall i :: 0 <= i < |r| ==>
              r[i].name == calls[i].name && SameShape(calls[i].parameters, r[i].parameters) &&
              r[i].dependOn == calls[i].dependOn + Deps(calls[i].parameters, AllLeaves(results))
  {
    var leaves := AllLeaves(results);
    seq(|calls|, i requires 0 <= i < |calls| =>
      Call(calls[i].name, Rewrite(calls[i].parameters, leaves), calls[i].dependOn + Deps(calls[i].parameters, leaves)))
  }

  /** A result id made of two dot-free parts, as `f"{n}.{k}"` builds for a dot-free name. */
  predicate OneDot(id: string) {
    exists i :: 0 <= i < |id| && id[i] == '.' && '.' !in id[..i] && '.' !in id[i + 1..]
  }

  /** `path` lies below the id of one of `results`. */
  predicate BelowSome(path: string, results: seq<Field>) {
    exists j :: 0 <= j < |results| && Below(path, results[j].key)
  }

  /** Every leaf lies below the id of the result it came from. */
  lemma {:induction false} AllLeavesBelow(results: seq<Field>)
    requires forall j :: 0 <= j < |results| ==> results[j].key != ""
    ensures forall i :: 0 <= i < |AllLeaves(results)| ==> BelowSome(AllLeaves(results)[i].path, results)
  {
    if |results| > 0 {
      var a := Flatten(results[0].val, results[0].key);
      var rest := results[1..];
      var tl := AllLeaves(rest);
      assert forall j :: 0 <= j < |rest| ==> rest[j] == results[j + 1];
      AllLeavesBelow(rest);
      FlattenBelow(results[0].val, results[0].key);
      var all := AllLeaves(results);
      assert all == a + tl;
      forall i | 0 <= i < |all|
        ensures BelowSome(all[i].path, results)
      {
        if i < |a| {
          assert all[i] == a[i];
          assert Below(all[i].path, results[0].key);
        } else {
          assert all[i] == tl[i - |a|];
          assert BelowSome(tl[i - |a|].path, rest);
          var j :| 0 <= j < |rest| && Below(tl[i - |a|].path, rest[j].key);
          assert Below(all[i].path, results[j + 1].key);
        }
      }
    }
  }

  /** The id a result key of the form `n.k` is built from. */
  predicate IsResultId(d: string, results: seq<Field>) {
    exists j :: 0 <= j < |results| && results[j].key == d
  }

  /** A path below one of the `n.k` result ids has that id as its top call. */
  lemma TopIsResultId(path: string, results: seq<Field>)
    requires forall j :: 0 <= j < |results| ==> OneDot(results[j].key)
    requires BelowSome(path, results)
    ensures IsResultId(TopCall(path), results)
  {
    var j :| 0 <= j < |results| && Below(path, results[j].key);
    assert OneDot(results[j].key);
    TopOfId(path, results[j].key);
  }

  /** A path below an `n.k` id has exactly that id as its top call. */
  lemma TopOfId(path: string, id: string)
    requires OneDot(id) && Below(path, id)
    ensures TopCall(path) == id
  {
    var k :| 0 <= k < |id| && id[k] == '.' && '.' !in id[..k] && '.' !in id[k + 1..];
    assert id == id[..k] + "." + id[k + 1..];
    TopCallBelow(path, id[..k], id[k + 1..]);
  }

  /** The dependency of one scalar is the id of the result its first matching leaf came from. */
  lemma DepIsResultId(x: Json, results: seq<Field>)
    requires forall j :: 0 <= j < |results| ==> OneDot(results[j].key)
    requires |Dep(x, AllLeaves(results))| > 0
    ensures IsResultId(Dep(x, AllLeaves(results)), results)
  {
    var leaves := AllLeaves(results);
    assert forall j :: 0 <= j < |results| ==> results[j].key != "" by {
      forall j | 0 <= j < |results| ensures results[j].key != "" {
        assert OneDot(results[j].key);
      }
    }
    AllLeavesBelow(results);
    var i :| 0 <= i < |leaves| && FirstMatch(x, leaves, i) && Dep(x, leaves) == TopCall(leaves[i].path);
    TopIsResultId(leaves[i].path, results);
  }

  /** With result ids of the form `name.k`, every dependency a rewrite adds is the id of an
      earlier tool result. */
  lemma DepsAreResultIds(param: Json, results: seq<Field>)
    requires forall j :: 0 <= j < |results| ==> OneDot(results[j].key)
    ensures forall d :: d in Deps(param, AllLeaves(results)) ==> IsResultId(d, results)
  {
    var leaves := AllLeaves(results);
    DepsOfLeaves(param, leaves, "");
    var xs := Values(Flatten(param, ""));
    forall d | d in Deps(param, leaves)
      ensures IsResultId(d, results)
    {
      var x :| 0 <= x < |xs| && |Dep(xs[x], leaves)| > 0 && d == Dep(xs[x], leaves);
      DepIsResultId(xs[x], results);
    }
  }

  // ================================================================ assistant content

  /** A slice holds no occurrence the whole string does not hold within the same bounds. */
  lemma NoneInSlice(s: string, sub: string, a: nat, b: nat)
    requires a <= b <= |s|
    requires forall q :: a <= q && q + |sub| <= b ==> !OccursAt(s, sub, q)
    ensures !Contains(s[a..b], sub)
  {
    var t := s[a..b];
    forall p | 0 <= p <= |t|
      ensures !OccursAt(t, sub, p)
    {
      if p + |sub| <= |t| {
        var x := t[p..p + |sub|];
        var y := s[a + p..a + p + |sub|];
        forall k | 0 <= k < |sub|
          ensures x[k] == y[k]
        {
          assert t[p + k] == s[a + p + k];
        }
        assert x == y;
        assert !OccursAt(s, sub, a + p);
      }
    }
  }

  /** `m` sits in `s` between an opening and a closing tag. */
  predicate Tagged(s: string, open: string, m: string, close: string) {
    Contains(s, open + m + close)
  }

  /** The text between `s[i..]`'s opening tag at `i` and the first closing tag after it:
      the inner text of a non-greedy `open(.*?)close` match starting at `i`. */
  lemma InnerText(s: string, open: string, close: string, i: nat, j: nat)
    requires |close| > 0 && OccursAt(s, open, i) && i + |open| <= j && OccursAt(s, close, j)
    requires forall q :: i + |open| <= q < j ==> !OccursAt(s, close, q)
    ensures Tagged(s, open, s[i + |open|..j], close)
    ensures !Contains(s[i + |open|..j], close)
  {
    var m := s[i + |open|..j];
    assert s[i..j + |close|] == open + m + close;
    assert OccursAt(s, open + m + close, i);
    NoneInSlice(s, close, i + |open|, j);
  }

  /** `re.findall(r"<call>(.*?)</call>", s, re.DOTALL)` from position `from`: each match
      starts at the first `<call>` and ends at the first `</call>` after it. */
  function CallTexts(s: string, from: nat): (r: seq<string>)
    requires from <= |s|
    ensures forall k :: 0 <= k < |r| ==> Tagged(s, "<call>", r[k], "</call>") && !Contains(r[k], "</call>")
    decreases |s| - from
  {
    var i := Find(s, "<call>", from);
    if i < 0 then []
    else
      var j := Find(s, "</call>", i + 6);
      if j < 0 then []
      else
        InnerText(s, "<call>", "</call>", i, j);
        [s[i + 6..j]] + CallTexts(s, j + 7)
  }

  /** An occurrence at or after `a` is an occurrence in `s[a..]`. */
  lemma SomeInSuffix(s: string, sub: string, a: nat, p: nat)
    requires a <= p && OccursAt(s, sub, p)
    ensures Contains(s[a..], sub)
  {
    var x := s[a..][p - a..p - a + |sub|];
    var y := s[p..p + |sub|];
    forall k | 0 <= k < |sub|
      ensures x[k] == y[k]
    {
      assert s[a..][p - a + k] == s[p + k];
    }
    assert x == y;
    assert OccursAt(s[a..], sub, p - a);
  }

  /** Without a `<call>` tag there is no call text. */
  lemma CallTextsNone(s: string, from: nat)
    requires from <= |s| && !Contains(s[from..], "<call>")
    ensures CallTexts(s, from) == []
  {
    var i := Find(s, "<call>", from);
    if i >= 0 {
      SomeInSuffix(s, "<call>", from, i);
    }
  }

  /** `open` occurs at `i` and nowhere before, and `close` occurs at `j`, its first
      occurrence after the opening tag: the leftmost non-greedy `open(.*?)close` match. */
  predicate LeftmostMatch(s: string, open: string, close: string, i: nat, j: nat) {
    && OccursAt(s, open, i) && (forall q :: 0 <= q < i ==> !OccursAt(s, open, q))
    && i + |open| <= j && OccursAt(s, close, j)
    && (forall q :: i + |open| <= q < j ==> !OccursAt(s, close, q))
  }

  /** `re.search(r"<final>(.*?)</final>", s, re.DOTALL).group(1)`, or `None`: the text of
      the leftmost match, which exists exactly when some `<final>` is followed by a
      `</final>`. */
  function FinalText(s: string): (r: Option<string>)
    ensures r.Some? ==> Tagged(s, "<final>", r.value, "</final>") && !Contains(r.value, "</final>")
    ensures r.Some? ==> exists i: nat, j: nat :: LeftmostMatch(s, "<final>", "</final>", i, j) && r.value == s[i + 7..j]
    ensures r.None? ==> forall i: nat, j: nat :: OccursAt(s, "<final>", i) && i + 7 <= j ==> !OccursAt(s, "</final>", j)
    ensures !Contains(s, "<final>") ==> r.None?
  {
    var i := Find(s, "<final>", 0);
    if i < 0 then None
    else
      var j := Find(s, "</final>", i + 7);
      if j < 0 then None
      else
        InnerText(s, "<final>", "</final>", i, j);
        assert LeftmostMatch(s, "<final>", "</final>", i, j);
        Some(s[i + 7..j])
  }

  /** `thought.replace(f"<call>{cm}</call>", "")` for every match in turn. */
  function RemoveCalls(t: string, cms: seq<string>): (r: string)
    ensures |r| <= |t|
    decreases |cms|
  {
    if |cms| == 0 then t
    else
      ReplaceShrinks(t, "<call>" + cms[0] + "</call>");
      RemoveCalls(ReplaceAll(t, "<call>" + cms[0] + "</call>", ""), cms[1..])
  }

  /** Replacing by the empty string never lengthens. */
  lemma {:induction false} ReplaceShrinks(s: string, pat: string)
    requires |pat| > 0
    ensures |ReplaceAll(s, pat, "")| <= |s|
    decreases |s|
  {
    if |s| >= |pat| {
      if s[..|pat|] == pat {
        ReplaceShrinks(s[|pat|..], pat);
      } else {
        ReplaceShrinks(s[1..], pat);
      }
    }
  }

  /** `thought.replace(f"<final>{fm}</final>", "")` when there is a final block. */
  function RemoveFinal(t: string, fm: Option<string>): (r: string)
    ensures |r| <= |t|
  {
    match fm
    case None => t
    case Some(f) =>
      ReplaceShrinks(t, "<final>" + f + "</final>");
      ReplaceAll(t, "<final>" + f + "</final>", "")
  }

  /** What `split_assistant_content` returns: the trimmed thought, the parsed calls and the
      trimmed final answer. */
  datatype Parts = Parts(thought: string, calls: seq<Json>, final: Option<string>)

  /** Every call text parses; otherwise the `json.loads` of the first bad one raises. */
  function ParseAll(cms: seq<string>, parse: Parser): (r: Result<seq<Json>>)
    ensures r.Ok? <==> forall k :: 0 <= k < |cms| ==> parse(cms[k]).Some?
    ensures r.Ok? ==> |r.value| == |cms| && forall k :: 0 <= k < |cms| ==> parse(cms[k]) == Some(r.value[k])
  {
    if |cms| == 0 then Ok([])
    else match parse(cms[0])
      case None => Err(ValueError)
      case Some(v) =>
        match ParseAll(cms[1..], parse)
        case Err(e) => Err(e)
        case Ok(vs) =>
          assert forall k :: 0 < k < |cms| ==> cms[1..][k - 1] == cms[k];
          Ok([v] + vs)
  }

  /** `split_assistant_content(content)`. */
  function SplitAssistant(content: string, parse: Parser): (r: Result<Parts>)
    ensures r.Ok? ==> |r.value.thought| <= |content|
    ensures r.Ok? ==> forall k :: 0 <= k < |r.value.calls| ==>
              exists m :: Tagged(content, "<call>", m, "</call>") && parse(m) == Some(r.value.calls[k])
    ensures r.Ok? && r.value.final.Some? ==>
              exists m :: Tagged(content, "<final>", m, "</final>") && r.value.final.value == Strip(m)
  {
    var cms := CallTexts(content, 0);
    var fm := FinalText(content);
    var t1 := RemoveCalls(content, cms);
    var t2 := RemoveFinal(t1, fm);
    match ParseAll(cms, parse)
    case Err(e) => Err(e)
    case Ok(calls) =>
      assert forall k :: 0 <= k < |calls| ==> Tagged(content, "<call>", cms[k], "</call>") && parse(cms[k]) == Some(calls[k]);
      Ok(Parts(Strip(t2), calls, if fm.Some? then Some(Strip(fm.value)) else None))
  }

  /** The calls are the parsed `<call>` texts, all of them and in order, and parsing fails
      exactly when one of them is not JSON; the final answer is the trimmed text of the
      leftmost `<final>` match; the thought is the content with every matched call and the
      final block removed, then trimmed. */
  lemma SplitAssistantParts(content: string, parse: Parser)
    ensures var cms := CallTexts(content, 0);
            SplitAssistant(content, parse).Ok? <==> forall k :: 0 <= k < |cms| ==> parse(cms[k]).Some?
    ensures var cms, r := CallTexts(content, 0), SplitAssistant(content, parse);
            r.Ok? ==> |r.value.calls| == |cms| && forall k :: 0 <= k < |cms| ==> parse(cms[k]) == Some(r.value.calls[k])
    ensures var fm, r := FinalText(content), SplitAssistant(content, parse);
            r.Ok? ==> (r.value.final.Some? <==> fm.Some?) && (fm.Some? ==> r.value.final.value == Strip(fm.value))
    ensures var r := SplitAssistant(content, parse);
            r.Ok? ==> r.value.thought == Strip(RemoveFinal(RemoveCalls(content, CallTexts(content, 0)), FinalText(content)))
  {
  }

  /** Content without tags is all thought: no calls, no final answer. */
  lemma PlainContent(content: string, parse: Parser)
    requires !Contains(content, "<call>") && !Contains(content, "<final>")
    ensures SplitAssistant(content, parse) == Ok(Parts(Strip(content), [], None))
  {
    assert content[0..] == content;
    CallTextsNone(content, 0);
  }

  // ================================================================ tools from the system message

  /** The entry `extract_tools_from_system` builds for one declared parameter. */
  function Property(v: Json): (r: Json)
    requires v.JObj?
    ensures r.JObj? && KeySeq(r.fields) == ["description", "type", "default"]
  {
    JObj([Field("description", GetOr(v.fields, "description", JStr(""))),
          Field("type", GetOr(v.fields, "type", JStr(""))),
          Field("default", GetOr(v.fields, "default", JStr("")))])
  }

  /** Every declared parameter is a dict, so `v.get` is defined on it. */
  predicate AllObjVals(fs: seq<Field>) {
    forall i :: 0 <= i < |fs| ==> fs[i].val.JObj?
  }

  /** The `properties` dict after the loop over `tool["parameters"].items()`, assigned
      onto `acc`; `AttributeError` from `v.get` on the first non-dict value. */
  function Properties(ps: seq<Field>, acc: seq<Field>): (r: Result<seq<Field>>)
    ensures r.Ok? <==> AllObjVals(ps)
    ensures r.Err? ==> r.error == AttributeError
    decreases |ps|
  {
    if |ps| == 0 then Ok(acc)
    else if !ps[0].val.JObj? then Err(AttributeError)
    else
      assert forall i :: 0 < i < |ps| ==> ps[1..][i - 1] == ps[i];
      Properties(ps[1..], Assign(acc, ps[0].key, Property(ps[0].val)))
  }

  /** Every declared parameter gets its entry under its own name, and nothing else is
      added to what was there. */
  lemma {:induction false} PropertiesMeans(ps: seq<Field>, acc: seq<Field>)
    requires AllObjVals(ps) && DistinctKeys(ps)
    ensures Properties(ps, acc).Ok?
    ensures forall k :: Lookup(Properties(ps, acc).value, k) ==
              if HasKey(ps, k) then Some(Property(Lookup(ps, k).value)) else Lookup(acc, k)
    decreases |ps|
  {
    if |ps| > 0 {
      var f := ps[0];
      var acc' := Assign(acc, f.key, Property(f.val));
      var tail := ps[1..];
      assert forall i :: 0 <= i < |tail| ==> tail[i] == ps[i + 1];
      assert DistinctKeys(tail);
      PropertiesMeans(tail, acc');
      AssignLookup(acc, f.key, Property(f.val));
      var r := Properties(ps, acc).value;
      assert r == Properties(tail, acc').value;
      assert !HasKey(tail, f.key);
      FirstKeyIndexUnique(ps, f.key, 0);
      forall k
        ensures Lookup(r, k) == if HasKey(ps, k) then Some(Property(Lookup(ps, k).value)) else Lookup(acc, k)
      {
        if k != f.key {
          LookupTail(ps, k);
        }
      }
    }
  }

  /** The default response description used when a tool declares none. */
  const DefaultResponse: Json :=
    JObj([Field("rsp_1", JObj([Field("description", JStr("the response of the function")), Field("type", JStr("any"))]))])

  /** `tool["responses"]` when present, a dict and non-empty; the default otherwise. */
  function ResponseOf(tool: seq<Field>): (r: Json)
    ensures r.JObj? && |r.fields| > 0
    ensures (HasKey(tool, "responses") && GetOrNull(tool, "responses").JObj? && |GetOrNull(tool, "responses").fields| > 0)
            ==> r == GetOrNull(tool, "responses")
  {
    var rs := GetOrNull(tool, "responses");
    if HasKey(tool, "responses") && rs.JObj? && |rs.fields| > 0 then rs else DefaultResponse
  }

  /** A declared tool `extract_tools_from_system` accepts: a dict with `name`, `description`
      and a `parameters` dict of dicts. */
  predicate ToolOk(t: Json) {
    t.JObj? && HasKey(t.fields, "name") && HasKey(t.fields, "description") && HasKey(t.fields, "parameters") &&
    GetOrNull(t.fields, "parameters").JObj? && AllObjVals(GetOrNull(t.fields, "parameters").fields)
  }

  /** The error the conversion of a declared tool raises first. */
  function ToolError(t: Json): PyError {
    if !t.JObj? then TypeError
    else if !HasKey(t.fields, "name") || !HasKey(t.fields, "description") || !HasKey(t.fields, "parameters") then KeyError
    else AttributeError
  }

  /** The tool entry of the hub's format: `name`, `description`, `parameters` with
      `type`, `properties`, `required`, and `response`. */
  predicate ToolShape(r: Json) {
    r.JObj? && KeySeq(r.fields) == ["name", "description", "parameters", "response"] &&
    r.fields[2].val.JObj? && KeySeq(r.fields[2].val.fields) == ["type", "properties", "required"] &&
    r.fields[2].val.fields[0].val == JStr("object") && r.fields[2].val.fields[1].val.JObj? &&
    r.fields[3].val.JObj? && |r.fields[3].val.fields| > 0
  }

  /** One iteration of the loop in `extract_tools_from_system`. */
  function ExtractTool(t: Json): (r: Result<Json>)
    ensures r.Ok? <==> ToolOk(t)
    ensures r.Err? ==> r.error == ToolError(t)
    ensures r.Ok? ==> (ToolShape(r.value) &&
                       r.value.fields[0].val == GetOrNull(t.fields, "name") &&
                       r.value.fields[1].val == GetOrNull(t.fields, "description") &&
                       r.value.fields[2].val.fields[2].val == GetOr(t.fields, "required", JList([])) &&
                       r.value.fields[3].val == ResponseOf(t.fields))
  {
    if !t.JObj? || !HasKey(t.fields, "name") || !HasKey(t.fields, "description") || !HasKey(t.fields, "parameters") then
      Err(ToolError(t))
    else
      var ps := GetOrNull(t.fields, "parameters");
      if !ps.JObj? then Err(AttributeError)
      else match Properties(ps.fields, [])
        case Err(e) => Err(e)
        case Ok(props) =>
          Ok(JObj([Field("name", GetOrNull(t.fields, "name")),
                   Field("description", GetOrNull(t.fields, "description")),
                   Field("parameters", JObj([Field("type", JStr("object")), Field("properties", JObj(props)),
                                             Field("required", GetOr(t.fields, "required", JList([])))])),
                   Field("response", ResponseOf(t.fields))]))
  }

  /** The `properties` of an extracted tool carry exactly the declared parameters, each
      with its description, type and default (`""` when absent). */
  lemma ExtractedProperties(t: Json)
    requires ToolOk(t) && DistinctKeys(GetOrNull(t.fields, "parameters").fields)
    ensures ExtractTool(t).Ok?
    ensures forall k :: var ps := GetOrNull(t.fields, "parameters").fields;
              Lookup(ExtractTool(t).value.fields[2].val.fields[1].val.fields, k) ==
              if HasKey(ps, k) then Some(Property(Lookup(ps, k).value)) else None
  {
    PropertiesMeans(GetOrNull(t.fields, "parameters").fields, []);
  }

  /** `extract_tools_from_system` once the tool list is parsed: iterating a non-iterable
      raises `TypeError`, and the first bad tool raises its error. */
  function ExtractTools(toolJson: Json): (r: Result<seq<Json>>)
    ensures r.Ok? <==> Items(toolJson).Ok? && forall i :: 0 <= i < |Items(toolJson).value| ==> ToolOk(Items(toolJson).value[i])
    ensures r.Ok? ==> (|r.value| == |Items(toolJson).value| &&
                       forall i :: 0 <= i < |r.value| ==> ExtractTool(Items(toolJson).value[i]) == Ok(r.value[i]))
  {
    match Items(toolJson)
    case Err(e) => Err(e)
    case Ok(ts) => ExtractAllSpec(ts); ExtractAll(ts)
  }

  function ExtractAll(ts: seq<Json>): Result<seq<Json>> {
    MapAll(ExtractTool, ts)
  }

  /** The list converts iff every tool converts; then element by element, and otherwise
      with the error of the first tool that does not convert. */
  lemma ExtractAllSpec(ts: seq<Json>)
    ensures var r := ExtractAll(ts);
      && (r.Ok? <==> forall i :: 0 <= i < |ts| ==> ToolOk(ts[i]))
      && (r.Ok? ==> |r.value| == |ts| && forall i :: 0 <= i < |ts| ==> ExtractTool(ts[i]) == Ok(r.value[i]))
      && (r.Err? ==> exists i :: 0 <= i < |ts| && !ToolOk(ts[i]) && r.error == ToolError(ts[i]) &&
                                forall j :: 0 <= j < i ==> ToolOk(ts[j]))
  {
    MapAllOk(ExtractTool, ts);
    MapAllLength(ExtractTool, ts);
    MapAllError(ExtractTool, ts);
    if ExtractAll(ts).Ok? {
      forall i | 0 <= i < |ts|
        ensures ExtractTool(ts[i]) == Ok(ExtractAll(ts).value[i])
      {
        MapAllAt(ExtractTool, ts, i);
      }
    }
  }

  // ================================================================ conversion

  /** A message of the converted sample: `id`, `candidate_tools`, `user` and
      `tool_response` messages carry a JSON content, assistant text carries `hidden`. */
  datatype OutMsg =
    | Said(role: string, content: Json)
    | Assistant(hidden: bool, text: string)
    | ToolCalls(calls: seq<Call>)

  /** A value Python can use as a dict key. */
  predicate Hashable(j: Json) {
    !j.JList? && !j.JObj?
  }

  /** One single call `{"name": ..., "arguments": ...}` of an assistant message, with an
      empty `depend_on`; `tool_call_counts[tool_name]` needs a hashable name. */
  function CallOf(c: Json): (r: Result<Call>)
    ensures r.Ok? <==> c.JObj? && HasKey(c.fields, "name") && Hashable(GetOrNull(c.fields, "name")) && HasKey(c.fields, "arguments")
    ensures r.Ok? ==> r.value == Call(GetOrNull(c.fields, "name"), GetOrNull(c.fields, "arguments"), {})
  {
    if !c.JObj? then Err(TypeError)
    else if !HasKey(c.fields, "name") then Err(KeyError)
    else if !Hashable(GetOrNull(c.fields, "name")) then Err(TypeError)
    else if !HasKey(c.fields, "arguments") then Err(KeyError)
    else Ok(Call(GetOrNull(c.fields, "name"), GetOrNull(c.fields, "arguments"), {}))
  }

  /** `[c] if isinstance(c, dict) else c`, iterated. */
  function SinglesOf(c: Json): (r: Result<seq<Json>>)
    ensures c.JObj? ==> r == Ok([c])
    ensures c.JList? ==> r == Ok(c.elems)
  {
    if c.JObj? then Ok([c]) else Items(c)
  }

  /** How many single calls the parsed calls stand for, when each is a dict or a list. */
  function CallCount(cs: seq<Json>): nat {
    if |cs| == 0 then 0 else (if cs[0].JObj? then 1 else if cs[0].JList? then |cs[0].elems| else 0) + CallCount(cs[1..])
  }

  function CallsOfSingles(ss: seq<Json>): (r: Result<seq<Call>>)
    ensures r.Ok? <==> forall i :: 0 <= i < |ss| ==> CallOf(ss[i]).Ok?
    ensures r.Ok? ==> |r.value| == |ss| && forall i :: 0 <= i < |ss| ==> CallOf(ss[i]) == Ok(r.value[i])
  {
    if |ss| == 0 then Ok([])
    else match CallOf(ss[0])
      case Err(e) => Err(e)
      case Ok(c) =>
        assert forall i :: 0 < i < |ss| ==> ss[1..][i - 1] == ss[i];
        match CallsOfSingles(ss[1..])
        case Err(e) => Err(e)
        case Ok(rest) => Ok([c] + rest)
  }

  /** The `tc_list` an assistant message's parsed calls give: dict calls and list calls
      flattened into single calls, in order. */
  function CollectCalls(cs: seq<Json>): (r: Result<seq<Call>>)
    ensures r.Ok? && (forall i :: 0 <= i < |cs| ==> cs[i].JObj? || cs[i].JList?) ==> |r.value| == CallCount(cs)
    ensures r.Ok? ==> forall i :: 0 <= i < |r.value| ==> r.value[i].dependOn == {}
  {
    if |cs| == 0 then Ok([])
    else match SinglesOf(cs[0])
      case Err(e) => Err(e)
      case Ok(ss) =>
        match CallsOfSingles(ss)
        case Err(e) => Err(e)
        case Ok(a) =>
          match CollectCalls(cs[1..])
          case Err(e) => Err(e)
          case Ok(b) =>
            assert forall i :: 0 < i < |cs| ==> cs[1..][i - 1] == cs[i];
            Ok(a + b)
  }

  /** How many of `seen` equal `n`: `local_call_counts[n]`. */
  function CountEq(seen: seq<Json>, n: Json): nat {
    if |seen| == 0 then 0 else (if PyEq(seen[|seen| - 1], n) then 1 else 0) + CountEq(seen[..|seen| - 1], n)
  }

  /** The response id `f"{n}.{k}"`. */
  function RspId(n: Json, k: nat): string {
    Show(n) + "." + NatToString(k)
  }

  /** `single_rsp.get("results", {})`, wrapped as `{"response": x}` unless a dict. */
  function Wrap(data: Json): (r: Json)
    ensures r.JObj?
    ensures data.JObj? ==> r == data
    ensures !data.JObj? ==> r.fields == [Field("response", data)]
  {
    if data.JObj? then data else JObj([Field("response", data)])
  }

  /** A response entry the loop accepts: a dict with a hashable `name`. */
  predicate EntryOk(e: Json) {
    e.JObj? && HasKey(e.fields, "name") && Hashable(GetOrNull(e.fields, "name"))
  }

  /** The state the reply loop leaves: `rsp_map`, `call_results`, and whether the loop
      finished without raising. */
  datatype Replies = Replies(rspMap: seq<Field>, results: seq<Field>, ok: bool)

  /** Every key of `rspMap` holds the same value in `results`. */
  ghost predicate Recorded(rspMap: seq<Field>, results: seq<Field>) {
    forall k :: HasKey(rspMap, k) ==> Lookup(results, k) == Lookup(rspMap, k)
  }

  /** `single_rsp["name"]` of an accepted entry. */
  function EntryName(e: Json): Json {
    if e.JObj? then GetOrNull(e.fields, "name") else JNull
  }

  function NamesOf(es: seq<Json>): (ns: seq<Json>)
    ensures |ns| == |es| && forall i :: 0 <= i < |es| ==> ns[i] == EntryName(es[i])
  {
    if |es| == 0 then [] else NamesOf(es[..|es| - 1]) + [EntryName(es[|es| - 1])]
  }

  /** The id of entry `k` of a reply: its name, and how many earlier entries of this reply
      carry an equal name. */
  function EntryId(es: seq<Json>, k: nat): string
    requires k < |es|
  {
    RspId(EntryName(es[k]), CountEq(NamesOf(es[..k]), EntryName(es[k])))
  }

  /** The `for single_rsp in tool_rsp_content` loop from entry `k` on; a bad entry raises
      and leaves the updates made so far in `call_results`. */
  function ReplyLoop(es: seq<Json>, k: nat, rspMap: seq<Field>, results: seq<Field>): Replies
    requires k <= |es|
    decreases |es| - k
  {
    if k == |es| then Replies(rspMap, results, true)
    else if !EntryOk(es[k]) then Replies(rspMap, results, false)
    else
      var id := EntryId(es, k);
      var v := EntryData(es[k]);
      ReplyLoop(es, k + 1, Assign(rspMap, id, v), Assign(results, id, v))
  }

  /** The response recorded for an accepted entry. */
  function EntryData(e: Json): Json
    requires e.JObj?
  {
    Wrap(GetOr(e.fields, "results", JObj([])))
  }

  /** The loop finishes iff every remaining entry is accepted; it keeps `rsp_map` and
      `call_results` in step, every response a dict, and records an id for each entry. */
  lemma ReplyLoopSpec(es: seq<Json>, k: nat, rspMap: seq<Field>, results: seq<Field>)
    requires k <= |es|
    ensures var r := ReplyLoop(es, k, rspMap, results);
      && (r.ok <==> forall i :: k <= i < |es| ==> EntryOk(es[i]))
      && (Recorded(rspMap, results) ==> Recorded(r.rspMap, r.results))
      && (AllObjVals(rspMap) ==> AllObjVals(r.rspMap))
      && (forall key :: HasKey(rspMap, key) ==> HasKey(r.rspMap, key))
      && (r.ok ==> forall i :: k <= i < |es| ==> HasKey(r.rspMap, EntryId(es, i)))
  {
    ReplyLoopOk(es, k, rspMap, results);
    if Recorded(rspMap, results) { ReplyLoopRecorded(es, k, rspMap, results); }
    if AllObjVals(rspMap) { ReplyLoopObjs(es, k, rspMap, results); }
    ReplyLoopKeeps(es, k, rspMap, results);
    ReplyLoopIds(es, k, rspMap, results);
  }

  lemma {:induction false} ReplyLoopOk(es: seq<Json>, k: nat, rspMap: seq<Field>, results: seq<Field>)
    requires k <= |es|
    ensures ReplyLoop(es, k, rspMap, results).ok <==> forall i :: k <= i < |es| ==> EntryOk(es[i])
    decreases |es| - k
  {
    if k < |es| {
      if EntryOk(es[k]) {
        var id, v := EntryId(es, k), EntryData(es[k]);
        var m', r' := Assign(rspMap, id, v), Assign(results, id, v);
        assert ReplyLoop(es, k, rspMap, results) == ReplyLoop(es, k + 1, m', r');
        ReplyLoopOk(es, k + 1, m', r');
        AllFromNext(es, k);
      } else {
        assert !ReplyLoop(es, k, rspMap, results).ok;
      }
    }
  }

  /** Every entry from `k` on is accepted iff entry `k` is and every one after it. */
  lemma AllFromNext(es: seq<Json>, k: nat)
    requires k < |es|
    ensures (forall i :: k <= i < |es| ==> EntryOk(es[i])) <==>
            EntryOk(es[k]) && forall i :: k + 1 <= i < |es| ==> EntryOk(es[i])
  {
  }

  lemma {:induction false} ReplyLoopRecorded(es: seq<Json>, k: nat, rspMap: seq<Field>, results: seq<Field>)
    requires k <= |es| && Recorded(rspMap, results)
    ensures Recorded(ReplyLoop(es, k, rspMap, results).rspMap, ReplyLoop(es, k, rspMap, results).results)
    decreases |es| - k
  {
    if k < |es| && EntryOk(es[k]) {
      var id, v := EntryId(es, k), EntryData(es[k]);
      AssignRecorded(rspMap, results, id, v);
      ReplyLoopRecorded(es, k + 1, Assign(rspMap, id, v), Assign(results, id, v));
    }
  }

  /** Recording one response in both maps keeps them in step. */
  lemma AssignRecorded(rspMap: seq<Field>, results: seq<Field>, id: string, v: Json)
    requires Recorded(rspMap, results)
    ensures Recorded(Assign(rspMap, id, v), Assign(results, id, v))
  {
    AssignLookup(rspMap, id, v);
    AssignLookup(results, id, v);
    forall key | HasKey(Assign(rspMap, id, v), key)
      ensures Lookup(Assign(results, id, v), key) == Lookup(Assign(rspMap, id, v), key)
    {
      if key != id {
        assert Lookup(Assign(rspMap, id, v), key) == Lookup(rspMap, key);
      }
    }
  }

  lemma {:induction false} ReplyLoopObjs(es: seq<Json>, k: nat, rspMap: seq<Field>, results: seq<Field>)
    requires k <= |es| && AllObjVals(rspMap)
    ensures AllObjVals(ReplyLoop(es, k, rspMap, results).rspMap)
    decreases |es| - k
  {
    if k < |es| && EntryOk(es[k]) {
      var id, v := EntryId(es, k), EntryData(es[k]);
      AssignValues(rspMap, id, v);
      ReplyLoopObjs(es, k + 1, Assign(rspMap, id, v), Assign(results, id, v));
    }
  }

  lemma {:induction false} ReplyLoopKeeps(es: seq<Json>, k: nat, rspMap: seq<Field>, results: seq<Field>)
    requires k <= |es|
    ensures forall key :: HasKey(rspMap, key) ==> HasKey(ReplyLoop(es, k, rspMap, results).rspMap, key)
    decreases |es| - k
  {
    if k < |es| && EntryOk(es[k]) {
      var id, v := EntryId(es, k), EntryData(es[k]);
      var m', r' := Assign(rspMap, id, v), Assign(results, id, v);
      assert ReplyLoop(es, k, rspMap, results) == ReplyLoop(es, k + 1, m', r');
      AssignKeeps(rspMap, id, v);
      ReplyLoopKeeps(es, k + 1, m', r');
    }
  }

  /** `d[k] = v` removes no key and adds `k`. */
  lemma AssignKeeps(fs: seq<Field>, k: string, v: Json)
    ensures HasKey(Assign(fs, k, v), k)
    ensures forall key :: HasKey(fs, key) ==> HasKey(Assign(fs, k, v), key)
  {
    AssignLookup(fs, k, v);
    forall key | HasKey(fs, key) && key != k
      ensures HasKey(Assign(fs, k, v), key)
    {
      assert Lookup(Assign(fs, k, v), key) == Lookup(fs, key);
    }
  }

  lemma {:induction false} ReplyLoopIds(es: seq<Json>, k: nat, rspMap: seq<Field>, results: seq<Field>)
    requires k <= |es|
    ensures ReplyLoop(es, k, rspMap, results).ok ==>
              forall i :: k <= i < |es| ==> HasKey(ReplyLoop(es, k, rspMap, results).rspMap, EntryId(es, i))
    decreases |es| - k
  {
    if k < |es| && EntryOk(es[k]) {
      var id, v := EntryId(es, k), EntryData(es[k]);
      var m', r' := Assign(rspMap, id, v), Assign(results, id, v);
      var r := ReplyLoop(es, k + 1, m', r');
      assert ReplyLoop(es, k, rspMap, results) == r;
      AssignKeeps(rspMap, id, v);
      ReplyLoopIds(es, k + 1, m', r');
      ReplyLoopKeeps(es, k + 1, m', r');
      if r.ok {
        forall i | k <= i < |es|
          ensures HasKey(r.rspMap, EntryId(es, i))
        {
          if i == k { assert HasKey(m', id); }
        }
      }
    }
  }

  /** The `try` block for one tool message: parse its content and record each entry under
      its response id; any exception leaves `ok` false and the partial `call_results`. */
  function ToolReply(tm: Json, results: seq<Field>, parse: Parser): (r: Replies)
    requires tm.JObj?
    ensures Recorded(r.rspMap, r.results)
    ensures AllObjVals(r.rspMap)
    ensures r.ok <==> HasKey(tm.fields, "content") && GetOrNull(tm.fields, "content").JStr? &&
                      parse(GetOrNull(tm.fields, "content").s).Some? &&
                      Items(parse(GetOrNull(tm.fields, "content").s).value).Ok? &&
                      forall i :: 0 <= i < |Items(parse(GetOrNull(tm.fields, "content").s).value).value| ==>
                        EntryOk(Items(parse(GetOrNull(tm.fields, "content").s).value).value[i])
  {
    var c := GetOrNull(tm.fields, "content");
    if !HasKey(tm.fields, "content") || !c.JStr? then Replies([], results, false)
    else match parse(c.s)
      case None => Replies([], results, false)
      case Some(v) =>
        match Items(v)
        case Err(_) => Replies([], results, false)
        case Ok(es) =>
          ReplyLoopSpec(es, 0, [], results);
          ReplyLoop(es, 0, [], results)
  }

  /** A reply that parses to a list of entries records one response per entry, each under
      the id `name.k` with `k` counted per name within the reply, and every recorded
      response is a dict. */
  lemma ReplyIds(tm: Json, results: seq<Field>, parse: Parser, es: seq<Json>)
    requires tm.JObj? && HasKey(tm.fields, "content") && GetOrNull(tm.fields, "content").JStr?
    requires parse(GetOrNull(tm.fields, "content").s) == Some(JList(es))
    requires forall i :: 0 <= i < |es| ==> EntryOk(es[i])
    ensures ToolReply(tm, results, parse).ok
    ensures forall i :: 0 <= i < |es| ==> HasKey(ToolReply(tm, results, parse).rspMap, EntryId(es, i))
    ensures forall k :: HasKey(ToolReply(tm, results, parse).rspMap, k) ==>
              Lookup(ToolReply(tm, results, parse).results, k) == Lookup(ToolReply(tm, results, parse).rspMap, k)
  {
    ReplyLoopSpec(es, 0, [], results);
  }

  /** The number of tool-call messages in an output. */
  function CallsIn(out: seq<OutMsg>): nat {
    if |out| == 0 then 0 else (if out[0].ToolCalls? then 1 else 0) + CallsIn(out[1..])
  }

  lemma {:induction false} CallsInAppend(a: seq<OutMsg>, b: seq<OutMsg>)
    ensures CallsIn(a + b) == CallsIn(a) + CallsIn(b)
  {
    if |a| > 0 {
      assert (a + b)[1..] == a[1..] + b;
      CallsInAppend(a[1..], b);
    } else {
      assert a + b == b;
    }
  }

  /** What one assistant message produces, the tool-message pointer and results after it,
      and whether the loop moves on to the next message (it does not when the reply
      raised and `continue` skipped `msg_idx += 1`). */
  datatype Turn = Turn(out: seq<OutMsg>, ptr: nat, results: seq<Field>, advance: bool)

  /** The outputs before the reply: the hidden thought, if any, and the tool-call message. */
  function Thought(p: Parts): (r: seq<OutMsg>)
    ensures CallsIn(r) == 0
  {
    if |p.thought| > 0 then [Assistant(true, p.thought)] else []
  }

  /** The non-hidden final answer, if any. */
  function Final(p: Parts): (r: seq<OutMsg>)
    ensures CallsIn(r) == 0
  {
    if p.final.Some? && |p.final.value| > 0 then [Assistant(false, p.final.value)] else []
  }

  /** An assistant message with calls: the thought, one tool-call message with the
      rewritten calls, then the next unused tool message's reply and the final answer, or
      nothing more when that reply raised. */
  function CallTurn(p: Parts, tcs: seq<Call>, tms: seq<Json>, ptr: nat, results: seq<Field>, parse: Parser): (r: Turn)
    requires AllObjs(tms) && ptr <= |tms|
    ensures r.ptr == (if ptr < |tms| then ptr + 1 else ptr)
    ensures !r.advance ==> r.ptr == ptr + 1
    ensures CallsIn(r.out) == 1
    ensures |r.out| > |Thought(p)| && r.out[..|Thought(p)|] == Thought(p)
    ensures r.out[|Thought(p)|] == ToolCalls(ProcessCalls(tcs, results))
    ensures r.advance ==> r.out[|r.out| - |Final(p)|..] == Final(p)
  {
    var call := ToolCalls(ProcessCalls(tcs, results));
    var head := Thought(p) + [call];
    CallsInAppend(Thought(p), [call]);
    assert CallsIn([call]) == 1;
    if ptr < |tms| then
      var rep := ToolReply(tms[ptr], results, parse);
      if rep.ok then
        var said := [Said("tool_response", JObj(rep.rspMap))];
        CallsInAppend(head, said);
        CallsInAppend(head + said, Final(p));
        Turn(head + said + Final(p), ptr + 1, rep.results, true)
      else Turn(head, ptr + 1, rep.results, false)
    else
      CallsInAppend(head, Final(p));
      Turn(head + Final(p), ptr, results, true)
  }

  /** The `elif m["role"] == "assistant"` branch of `msglist_to_newformat`. */
  function AssistantTurn(m: Json, tms: seq<Json>, ptr: nat, results: seq<Field>, parse: Parser): (r: Result<Turn>)
    requires m.JObj? && AllObjs(tms) && ptr <= |tms|
    ensures r.Ok? ==> r.value.ptr <= |tms| && (r.value.ptr == ptr || r.value.ptr == ptr + 1)
    ensures r.Ok? && !r.value.advance ==> r.value.ptr == ptr + 1
    ensures r.Ok? ==> CallsIn(r.value.out) <= 1
    ensures r.Ok? ==> HasKey(m.fields, "content") && GetOrNull(m.fields, "content").JStr?
  {
    var c := GetOrNull(m.fields, "content");
    if !HasKey(m.fields, "content") then Err(KeyError)
    else if !c.JStr? then Err(TypeError)
    else match SplitAssistant(c.s, parse)
      case Err(e) => Err(e)
      case Ok(p) =>
        if |p.calls| == 0 then
          CallsInAppend(Thought(p), Final(p));
          Ok(Turn(Thought(p) + Final(p), ptr, results, true))
        else match CollectCalls(p.calls)
          case Err(e) => Err(e)
          case Ok(tcs) => Ok(CallTurn(p, tcs, tms, ptr, results, parse))
  }

  /** `f"{dataset_name}_{subset_name}_{idx}"`. */
  function SampleId(dataset: string, subset: string, idx: nat): string {
    dataset + "_" + subset + "_" + NatToString(idx)
  }

  /** Every message is a dict with a `role`, as the `tool_msgs` comprehension needs. */
  predicate AllRoles(msgs: seq<Json>) {
    forall i :: 0 <= i < |msgs| ==> RoleBearing(msgs[i])
  }

  /** `m["role"]` on the first message without one. */
  function RoleError(msgs: seq<Json>): PyError
    requires !AllRoles(msgs)
  {
    if !msgs[0].JObj? then TypeError
    else if !HasKey(msgs[0].fields, "role") then KeyError
    else
      assert !AllRoles(msgs[1..]) by {
        var i :| 0 <= i < |msgs| && !RoleBearing(msgs[i]);
        assert msgs[1..][i - 1] == msgs[i];
      }
      RoleError(msgs[1..])
  }

  /** The messages whose role is `tool`, in order: `msgs[i] for i in tool_msgs`. */
  function ToolMsgs(msgs: seq<Json>): (r: seq<Json>)
    requires AllRoles(msgs)
    ensures AllObjs(r) && |r| <= |msgs|
    ensures forall k :: 0 <= k < |r| ==> HasRole(r[k], "tool")
  {
    if |msgs| == 0 then []
    else
      assert AllRoles(msgs[1..]) by {
        forall i | 0 <= i < |msgs| - 1 ensures RoleBearing(msgs[1..][i]) {
          assert msgs[1..][i] == msgs[i + 1];
        }
      }
      (if HasRole(msgs[0], "tool") then [msgs[0]] else []) + ToolMsgs(msgs[1..])
  }

  /** The regex search for the tool list in the system message and its `json.loads`:
      the parsed list, or the error (`AttributeError` when nothing matches, a decoding
      error when the text is not JSON). */
  type ToolFinder = string -> Result<Json>

  /** The `id` and `candidate_tools` messages, after the checks that precede the loop:
      `msgs[0]["content"]`, the tool extraction and the `tool_msgs` comprehension. */
  function Header(msgs: seq<Json>, dataset: string, subset: string, idx: nat, find: ToolFinder): (r: Result<seq<OutMsg>>)
    ensures r.Ok? ==> AllRoles(msgs) && |msgs| > 0
    ensures r.Ok? ==> |r.value| == 2 && r.value[0] == Said("id", JStr(SampleId(dataset, subset, idx))) &&
                      r.value[1].Said? && r.value[1].role == "candidate_tools" && r.value[1].content.JList? &&
                      forall k :: 0 <= k < |r.value[1].content.elems| ==> ToolShape(r.value[1].content.elems[k])
  {
    if |msgs| == 0 then Err(IndexError)
    else if !msgs[0].JObj? then Err(TypeError)
    else if !HasKey(msgs[0].fields, "content") then Err(KeyError)
    else if !GetOrNull(msgs[0].fields, "content").JStr? then Err(TypeError)
    else match find(GetOrNull(msgs[0].fields, "content").s)
      case Err(e) => Err(e)
      case Ok(tj) =>
        match ExtractTools(tj)
        case Err(e) => Err(e)
        case Ok(tools) =>
          if !AllRoles(msgs) then Err(RoleError(msgs))
          else Ok([Said("id", JStr(SampleId(dataset, subset, idx))), Said("candidate_tools", JList(tools))])
  }

  /** The number of assistant messages. */
  function Assistants(msgs: seq<Json>): nat
    requires AllObjs(msgs)
  {
    if |msgs| == 0 then 0 else (if HasRole(msgs[0], "assistant") then 1 else 0) + Assistants(msgs[1..])
  }

  /** The `while msg_idx < len(msgs)` loop from message `i`, with `msg_idx += 1` also on
      the path where the reply raised. */
  function Walk(msgs: seq<Json>, tms: seq<Json>, i: nat, ptr: nat, results: seq<Field>, parse: Parser): (r: Result<seq<OutMsg>>)
    requires AllRoles(msgs) && AllObjs(tms) && i <= |msgs| && ptr <= |tms|
    decreases |msgs| - i
  {
    if i == |msgs| then Ok([])
    else
      var m := msgs[i];
      if HasRole(m, "user") then
        if !HasKey(m.fields, "content") then Err(KeyError)
        else match Walk(msgs, tms, i + 1, ptr, results, parse)
          case Err(e) => Err(e)
          case Ok(rest) => Ok([Said("user", GetOrNull(m.fields, "content"))] + rest)
      else if HasRole(m, "assistant") then
        match AssistantTurn(m, tms, ptr, results, parse)
        case Err(e) => Err(e)
        case Ok(t) =>
          match Walk(msgs, tms, i + 1, t.ptr, t.results, parse)
          case Err(e) => Err(e)
          case Ok(rest) => Ok(t.out + rest)
      else Walk(msgs, tms, i + 1, ptr, results, parse)
  }

  /** The loop as written: after a reply that raised, `continue` skips `msg_idx += 1`, so
      the same assistant message is converted again against the next tool message. */
  function WalkAsWritten(msgs: seq<Json>, tms: seq<Json>, i: nat, ptr: nat, results: seq<Field>, parse: Parser): (r: Result<seq<OutMsg>>)
    requires AllRoles(msgs) && AllObjs(tms) && i <= |msgs| && ptr <= |tms|
    decreases |msgs| - i, |tms| - ptr
  {
    if i == |msgs| then Ok([])
    else
      var m := msgs[i];
      if HasRole(m, "user") then
        if !HasKey(m.fields, "content") then Err(KeyError)
        else match WalkAsWritten(msgs, tms, i + 1, ptr, results, parse)
          case Err(e) => Err(e)
          case Ok(rest) => Ok([Said("user", GetOrNull(m.fields, "content"))] + rest)
      else if HasRole(m, "assistant") then
        match AssistantTurn(m, tms, ptr, results, parse)
        case Err(e) => Err(e)
        case Ok(t) =>
          match WalkAsWritten(msgs, tms, if t.advance then i + 1 else i, t.ptr, t.results, parse)
          case Err(e) => Err(e)
          case Ok(rest) => Ok(t.out + rest)
      else WalkAsWritten(msgs, tms, i + 1, ptr, results, parse)
  }

  /** `msglist_to_newformat(msgs, dataset_name, subset_name, idx)` with the loop advancing
      past an assistant message whose reply raised. */
  function MsgListToNewFormat(msgs: seq<Json>, dataset: string, subset: string, idx: nat, find: ToolFinder, parse: Parser): (r: Result<seq<OutMsg>>)
    ensures r.Ok? ==> |r.value| >= 2 && r.value[0] == Said("id", JStr(SampleId(dataset, subset, idx))) &&
                      r.value[1].Said? && r.value[1].role == "candidate_tools"
  {
    match Header(msgs, dataset, subset, idx, find)
    case Err(e) => Err(e)
    case Ok(h) =>
      match Walk(msgs, ToolMsgs(msgs), 1, 0, [], parse)
      case Err(e) => Err(e)
      case Ok(rest) => Ok(h + rest)
  }

  /** `msglist_to_newformat` as written. */
  function MsgListToNewFormatAsWritten(msgs: seq<Json>, dataset: string, subset: string, idx: nat, find: ToolFinder, parse: Parser): (r: Result<seq<OutMsg>>)
    ensures r.Ok? ==> |r.value| >= 2 && r.value[0] == Said("id", JStr(SampleId(dataset, subset, idx))) &&
                      r.value[1].Said? && r.value[1].role == "candidate_tools"
  {
    match Header(msgs, dataset, subset, idx, find)
    case Err(e) => Err(e)
    case Ok(h) =>
      match WalkAsWritten(msgs, ToolMsgs(msgs), 1, 0, [], parse)
      case Err(e) => Err(e)
      case Ok(rest) => Ok(h + rest)
  }

  /** Each assistant message emits at most one tool-call message. */
  lemma {:induction false} WalkCalls(msgs: seq<Json>, tms: seq<Json>, i: nat, ptr: nat, results: seq<Field>, parse: Parser)
    requires AllRoles(msgs) && AllObjs(tms) && i <= |msgs| && ptr <= |tms|
    ensures AllObjs(msgs[i..])
    ensures Walk(msgs, tms, i, ptr, results, parse).Ok? ==>
              CallsIn(Walk(msgs, tms, i, ptr, results, parse).value) <= Assistants(msgs[i..])
    decreases |msgs| - i
  {
    assert AllObjs(msgs[i..]) by {
      forall k | 0 <= k < |msgs| - i ensures msgs[i..][k].JObj? {
        assert msgs[i..][k] == msgs[i + k];
      }
    }
    if i < |msgs| {
      var m := msgs[i];
      assert msgs[i..][1..] == msgs[i + 1..];
      assert msgs[i..][0] == m;
      if HasRole(m, "user") {
        if HasKey(m.fields, "content") {
          WalkCalls(msgs, tms, i + 1, ptr, results, parse);
          var w := Walk(msgs, tms, i + 1, ptr, results, parse);
          if w.Ok? {
            CallsInAppend([Said("user", GetOrNull(m.fields, "content"))], w.value);
          }
        }
      } else if HasRole(m, "assistant") {
        var t := AssistantTurn(m, tms, ptr, results, parse);
        if t.Ok? {
          WalkCalls(msgs, tms, i + 1, t.value.ptr, t.value.results, parse);
          var w := Walk(msgs, tms, i + 1, t.value.ptr, t.value.results, parse);
          if w.Ok? {
            CallsInAppend(t.value.out, w.value);
          }
        }
      } else {
        WalkCalls(msgs, tms, i + 1, ptr, results, parse);
      }
    } else {
      assert msgs[i..] == [];
    }
  }

  /** The converted sample holds no more tool-call messages than the input has assistant
      messages. */
  lemma ConvertedCalls(msgs: seq<Json>, dataset: string, subset: string, idx: nat, find: ToolFinder, parse: Parser)
    requires MsgListToNewFormat(msgs, dataset, subset, idx, find, parse).Ok?
    ensures AllObjs(msgs)
    ensures CallsIn(MsgListToNewFormat(msgs, dataset, subset, idx, find, parse).value) <= Assistants(msgs)
  {
    var h := Header(msgs, dataset, subset, idx, find).value;
    WalkCalls(msgs, ToolMsgs(msgs), 0, 0, [], parse);
    WalkCalls(msgs, ToolMsgs(msgs), 1, 0, [], parse);
    assert msgs[0..] == msgs;
    var rest := Walk(msgs, ToolMsgs(msgs), 1, 0, [], parse).value;
    assert MsgListToNewFormat(msgs, dataset, subset, idx, find, parse).value == h + rest;
    CallsInAppend(h, rest);
    assert CallsIn(h) == 0 by {
      assert h[1..][1..] == [];
    }
    AssistantsTail(msgs);
  }

  lemma AssistantsTail(msgs: seq<Json>)
    requires AllObjs(msgs) && |msgs| > 0
    ensures AllObjs(msgs[1..]) && Assistants(msgs[1..]) <= Assistants(msgs)
  {
  }

  // ---------------------------------------------------------------- the skipped msg_idx += 1

  /** The single call `{"name": "f", "arguments": {}}`. */
  function ExampleCall(): Json {
    JObj([Field("name", JStr("f")), Field("arguments", JObj([]))])
  }

  /** A `json.loads` that understands only the call text `c`. */
  function ExampleParse(s: string): Option<Json> {
    if s == "c" then Some(ExampleCall()) else None
  }

  /** A system message whose tool list is empty. */
  function ExampleFind(s: string): Result<Json> {
    Ok(JList([]))
  }

  /** A system message, one assistant message with one call, and a tool message. */
  function ExampleMsgs(sys: string, reply: string): seq<Json> {
    [Msg("system", JStr(sys)), Msg("assistant", JStr("<call>c</call>")), Msg("tool", JStr(reply))]
  }

  /** The one call text of the example content. */
  lemma ExampleCallTexts()
    ensures CallTexts("<call>c</call>", 0) == ["c"]
  {
    var s := "<call>c</call>";
    assert s == "<call>c" + "</call>";
    assert s == "<call>" + "c</call>";
    assert OccursAt(s, "<call>", 0);
    assert s[6..13][0] == 'c';
    assert !OccursAt(s, "</call>", 6);
    assert OccursAt(s, "</call>", 7);
    assert Find(s, "</call>", 6) == 7;
    assert s[6..7] == "c";
    assert CallTexts(s, 14) == [];
  }

  /** The example content has no final answer. */
  lemma ExampleNoFinal()
    ensures FinalText("<call>c</call>") == None
  {
    var s := "<call>c</call>";
    forall r | 0 <= r <= |s| ensures !OccursAt(s, "<final>", r) {
      if r + 7 <= |s| {
        assert s[r..r + 7][1] == s[r + 1];
      }
    }
  }

  /** Removing the example's one call text leaves nothing. */
  lemma ExampleRemoved()
    ensures RemoveCalls("<call>c</call>", ["c"]) == ""
  {
    var s := "<call>c</call>";
    assert s[..|s|] == s && s[|s|..] == [];
    assert ReplaceAll(s, s, "") == "";
  }

  /** The assistant content splits into no thought, one call and no final answer. */
  lemma ExampleSplit()
    ensures SplitAssistant("<call>c</call>", ExampleParse) == Ok(Parts("", [ExampleCall()], None))
  {
    var s := "<call>c</call>";
    ExampleCallTexts();
    ExampleNoFinal();
    ExampleRemoved();
    SplitAssistantParts(s, ExampleParse);
    var cms: seq<string> := ["c"];
    assert ExampleParse(cms[0]) == Some(ExampleCall());
    var r := SplitAssistant(s, ExampleParse);
    assert r.Ok?;
    assert r.value.calls[0] == ExampleCall();
    assert r.value.calls == [ExampleCall()];
    assert Strip("") == "";
    assert r.value.thought == "";
  }

  /** Every example message has a role; the second is the assistant message and the third
      the tool message. */
  lemma ExampleRoles(sys: string, reply: string)
    ensures AllRoles(ExampleMsgs(sys, reply))
    ensures HasRole(ExampleMsgs(sys, reply)[1], "assistant") && !HasRole(ExampleMsgs(sys, reply)[1], "user")
    ensures !HasRole(ExampleMsgs(sys, reply)[2], "user") && !HasRole(ExampleMsgs(sys, reply)[2], "assistant")
    ensures HasRole(ExampleMsgs(sys, reply)[2], "tool") && !HasRole(ExampleMsgs(sys, reply)[1], "tool")
    ensures ExampleMsgs(sys, reply)[0] == Msg("system", JStr(sys))
  {
  }

  lemma ExampleAssistants(sys: string, reply: string)
    ensures AllObjs(ExampleMsgs(sys, reply)) && Assistants(ExampleMsgs(sys, reply)) == 1
  {
    var msgs := ExampleMsgs(sys, reply);
    ExampleRoles(sys, reply);
    assert msgs[1..][1..][1..] == [];
    assert msgs[1..][1..][0] == msgs[2];
    assert msgs[1..][0] == msgs[1];
    assert Assistants(msgs[1..][1..]) == 0;
    assert Assistants(msgs[1..]) == 1;
  }

  lemma ExampleToolMsgs(sys: string, reply: string)
    ensures AllRoles(ExampleMsgs(sys, reply)) && ToolMsgs(ExampleMsgs(sys, reply)) == [ExampleMsgs(sys, reply)[2]]
  {
    var msgs := ExampleMsgs(sys, reply);
    ExampleRoles(sys, reply);
    assert msgs[1..][1..][1..] == [];
    assert msgs[1..][1..][0] == msgs[2];
    assert msgs[1..][0] == msgs[1];
    assert ToolMsgs(msgs[1..][1..]) == [msgs[2]];
    assert ToolMsgs(msgs[1..]) == [msgs[2]];
  }

  lemma ExampleHeader(sys: string, reply: string)
    ensures Header(ExampleMsgs(sys, reply), "d", "s", 0, ExampleFind) ==
            Ok([Said("id", JStr(SampleId("d", "s", 0))), Said("candidate_tools", JList([]))])
  {
    ExampleRoles(sys, reply);
    assert ExtractTools(JList([])) == Ok([]);
  }

  lemma ExampleHeaderCalls()
    ensures CallsIn([Said("id", JStr(SampleId("d", "s", 0))), Said("candidate_tools", JList([]))]) == 0
  {
    var h := [Said("id", JStr(SampleId("d", "s", 0))), Said("candidate_tools", JList([]))];
    assert h[1..][1..] == [];
  }

  /** The example's call list, collected. */
  function ExampleCalls(): seq<Call> {
    [Call(JStr("f"), JObj([]), {})]
  }

  lemma ExampleCollect()
    ensures CollectCalls([ExampleCall()]) == Ok(ExampleCalls())
  {
    var c := ExampleCall();
    FirstKeyIndexUnique(c.fields, "name", 0);
    FirstKeyIndexUnique(c.fields, "arguments", 1);
    assert CallOf(c) == Ok(Call(JStr("f"), JObj([]), {}));
    var ss: seq<Json> := [c];
    assert ss[1..] == [] && ss[0] == c;
    assert CallsOfSingles(ss[1..]) == Ok([]);
    assert [Call(JStr("f"), JObj([]), {})] + [] == ExampleCalls();
    assert CallsOfSingles(ss) == Ok(ExampleCalls());
    var cs: seq<Json> := [c];
    assert cs[1..] == [];
    assert ExampleCalls() + [] == ExampleCalls();
  }

  /** The example's assistant message always goes through the call branch. */
  lemma ExampleAssistantTurn(m: Json, tms: seq<Json>, ptr: nat, results: seq<Field>)
    requires m == Msg("assistant", JStr("<call>c</call>")) && AllObjs(tms) && ptr <= |tms|
    ensures AssistantTurn(m, tms, ptr, results, ExampleParse) ==
            Ok(CallTurn(Parts("", [ExampleCall()], None), ExampleCalls(), tms, ptr, results, ExampleParse))
  {
    ExampleSplit();
    ExampleCollect();
  }

  /** The first conversion of the assistant message: its reply does not parse. */
  lemma ExampleFirstTurn(tms: seq<Json>, reply: string)
    requires reply != "c" && tms == [Msg("tool", JStr(reply))]
    ensures AllObjs(tms)
    ensures var t := CallTurn(Parts("", [ExampleCall()], None), ExampleCalls(), tms, 0, [], ExampleParse);
            !t.advance && t.ptr == 1 && CallsIn(t.out) == 1
  {
    assert ExampleParse(reply) == None;
    assert !ToolReply(tms[0], [], ExampleParse).ok;
  }

  /** A second conversion, with the pointer past the only tool message: it runs through. */
  lemma ExampleSecondTurn(tms: seq<Json>, results: seq<Field>)
    requires AllObjs(tms) && |tms| == 1
    ensures var t := CallTurn(Parts("", [ExampleCall()], None), ExampleCalls(), tms, 1, results, ExampleParse);
            t.advance && t.ptr == 1 && CallsIn(t.out) == 1
  {
  }

  /** One step of the loop as written at an assistant message. */
  lemma AsWrittenStep(msgs: seq<Json>, tms: seq<Json>, i: nat, ptr: nat, results: seq<Field>, parse: Parser, t: Turn, rest: seq<OutMsg>)
    requires AllRoles(msgs) && AllObjs(tms) && i < |msgs| && ptr <= |tms|
    requires HasRole(msgs[i], "assistant") && !HasRole(msgs[i], "user")
    requires AssistantTurn(msgs[i], tms, ptr, results, parse) == Ok(t)
    requires WalkAsWritten(msgs, tms, if t.advance then i + 1 else i, t.ptr, t.results, parse) == Ok(rest)
    ensures WalkAsWritten(msgs, tms, i, ptr, results, parse) == Ok(t.out + rest)
  {
  }

  /** One step of the corrected loop at an assistant message. */
  lemma WalkStep(msgs: seq<Json>, tms: seq<Json>, i: nat, ptr: nat, results: seq<Field>, parse: Parser, t: Turn, rest: seq<OutMsg>)
    requires AllRoles(msgs) && AllObjs(tms) && i < |msgs| && ptr <= |tms|
    requires HasRole(msgs[i], "assistant") && !HasRole(msgs[i], "user")
    requires AssistantTurn(msgs[i], tms, ptr, results, parse) == Ok(t)
    requires Walk(msgs, tms, i + 1, t.ptr, t.results, parse) == Ok(rest)
    ensures Walk(msgs, tms, i, ptr, results, parse) == Ok(t.out + rest)
  {
  }

  lemma WalkSkip(msgs: seq<Json>, tms: seq<Json>, i: nat, ptr: nat, results: seq<Field>, parse: Parser)
    requires AllRoles(msgs) && AllObjs(tms) && i < |msgs| && ptr <= |tms|
    requires !HasRole(msgs[i], "user") && !HasRole(msgs[i], "assistant")
    ensures Walk(msgs, tms, i, ptr, results, parse) == Walk(msgs, tms, i + 1, ptr, results, parse)
    ensures WalkAsWritten(msgs, tms, i, ptr, results, parse) == WalkAsWritten(msgs, tms, i + 1, ptr, results, parse)
  {
  }

  lemma WalkEnd(msgs: seq<Json>, tms: seq<Json>, ptr: nat, results: seq<Field>, parse: Parser)
    requires AllRoles(msgs) && AllObjs(tms) && ptr <= |tms|
    ensures Walk(msgs, tms, |msgs|, ptr, results, parse) == Ok([])
    ensures WalkAsWritten(msgs, tms, |msgs|, ptr, results, parse) == Ok([])
  {
  }

  /** A last message that is neither a user nor an assistant message adds nothing. */
  lemma WalkTail(msgs: seq<Json>, tms: seq<Json>, ptr: nat, results: seq<Field>, parse: Parser)
    requires AllRoles(msgs) && AllObjs(tms) && |msgs| > 0 && ptr <= |tms|
    requires !HasRole(msgs[|msgs| - 1], "user") && !HasRole(msgs[|msgs| - 1], "assistant")
    ensures Walk(msgs, tms, |msgs| - 1, ptr, results, parse) == Ok([])
    ensures WalkAsWritten(msgs, tms, |msgs| - 1, ptr, results, parse) == Ok([])
  {
    WalkEnd(msgs, tms, ptr, results, parse);
    WalkSkip(msgs, tms, |msgs| - 1, ptr, results, parse);
  }

  /** Three messages whose middle assistant message converts, with a reply that raises,
      and converts again once the pointer has passed the only tool message: the loop as
      written emits both conversions. */
  lemma AsWrittenTwice(msgs: seq<Json>, tms: seq<Json>, parse: Parser, t1: Turn, t2: Turn)
    requires AllRoles(msgs) && |msgs| == 3 && AllObjs(tms) && |tms| == 1
    requires HasRole(msgs[1], "assistant") && !HasRole(msgs[1], "user")
    requires !HasRole(msgs[2], "user") && !HasRole(msgs[2], "assistant")
    requires AssistantTurn(msgs[1], tms, 0, [], parse) == Ok(t1) && !t1.advance && t1.ptr == 1
    requires AssistantTurn(msgs[1], tms, 1, t1.results, parse) == Ok(t2) && t2.advance && t2.ptr == 1
    ensures WalkAsWritten(msgs, tms, 1, 0, [], parse) == Ok(t1.out + t2.out)
  {
    WalkTail(msgs, tms, 1, t2.results, parse);
    AsWrittenStep(msgs, tms, 1, 1, t1.results, parse, t2, []);
    assert t2.out + [] == t2.out;
    AsWrittenStep(msgs, tms, 1, 0, [], parse, t1, t2.out);
  }

  /** The same three messages through the corrected loop: one conversion. */
  lemma WalkOnce(msgs: seq<Json>, tms: seq<Json>, parse: Parser, t1: Turn)
    requires AllRoles(msgs) && |msgs| == 3 && AllObjs(tms) && |tms| == 1
    requires HasRole(msgs[1], "assistant") && !HasRole(msgs[1], "user")
    requires !HasRole(msgs[2], "user") && !HasRole(msgs[2], "assistant")
    requires AssistantTurn(msgs[1], tms, 0, [], parse) == Ok(t1) && t1.ptr == 1
    ensures Walk(msgs, tms, 1, 0, [], parse) == Ok(t1.out)
  {
    WalkTail(msgs, tms, 1, t1.results, parse);
    WalkStep(msgs, tms, 1, 0, [], parse, t1, []);
    assert t1.out + [] == t1.out;
  }

  /** The loop as written over the example, from the assistant message on. */
  lemma ExampleWalkAsWritten(sys: string, reply: string)
    requires reply != "c"
    ensures AllRoles(ExampleMsgs(sys, reply)) && ToolMsgs(ExampleMsgs(sys, reply)) == [ExampleMsgs(sys, reply)[2]]
    ensures WalkAsWritten(ExampleMsgs(sys, reply), ToolMsgs(ExampleMsgs(sys, reply)), 1, 0, [], ExampleParse).Ok?
    ensures CallsIn(WalkAsWritten(ExampleMsgs(sys, reply), ToolMsgs(ExampleMsgs(sys, reply)), 1, 0, [], ExampleParse).value) == 2
  {
    var msgs := ExampleMsgs(sys, reply);
    ExampleRoles(sys, reply);
    ExampleToolMsgs(sys, reply);
    var tms := ToolMsgs(msgs);
    ExampleAssistantTurn(msgs[1], tms, 0, []);
    ExampleFirstTurn(tms, reply);
    var t1 := AssistantTurn(msgs[1], tms, 0, [], ExampleParse).value;
    ExampleAssistantTurn(msgs[1], tms, 1, t1.results);
    ExampleSecondTurn(tms, t1.results);
    var t2 := AssistantTurn(msgs[1], tms, 1, t1.results, ExampleParse).value;
    AsWrittenTwice(msgs, tms, ExampleParse, t1, t2);
    CallsInAppend(t1.out, t2.out);
  }

  /** As written, the assistant message whose reply cannot be parsed is converted a second
      time against the pointer past the last tool message, so one assistant message yields
      two tool-call messages. */
  lemma ContinueRepeatsCall(sys: string, reply: string)
    requires reply != "c"
    ensures AllObjs(ExampleMsgs(sys, reply)) && Assistants(ExampleMsgs(sys, reply)) == 1
    ensures MsgListToNewFormatAsWritten(ExampleMsgs(sys, reply), "d", "s", 0, ExampleFind, ExampleParse).Ok?
    ensures CallsIn(MsgListToNewFormatAsWritten(ExampleMsgs(sys, reply), "d", "s", 0, ExampleFind, ExampleParse).value) == 2
  {
    var msgs := ExampleMsgs(sys, reply);
    ExampleAssistants(sys, reply);
    ExampleWalkAsWritten(sys, reply);
    ExampleHeader(sys, reply);
    ExampleHeaderCalls();
    var h := [Said("id", JStr(SampleId("d", "s", 0))), Said("candidate_tools", JList([]))];
    CallsInAppend(h, WalkAsWritten(msgs, ToolMsgs(msgs), 1, 0, [], ExampleParse).value);
  }

  /** The corrected loop over the example, from the assistant message on. */
  lemma ExampleWalk(sys: string, reply: string)
    requires reply != "c"
    ensures AllRoles(ExampleMsgs(sys, reply)) && ToolMsgs(ExampleMsgs(sys, reply)) == [ExampleMsgs(sys, reply)[2]]
    ensures Walk(ExampleMsgs(sys, reply), ToolMsgs(ExampleMsgs(sys, reply)), 1, 0, [], ExampleParse).Ok?
    ensures CallsIn(Walk(ExampleMsgs(sys, reply), ToolMsgs(ExampleMsgs(sys, reply)), 1, 0, [], ExampleParse).value) == 1
  {
    var msgs := ExampleMsgs(sys, reply);
    ExampleRoles(sys, reply);
    ExampleToolMsgs(sys, reply);
    var tms := ToolMsgs(msgs);
    ExampleAssistantTurn(msgs[1], tms, 0, []);
    ExampleFirstTurn(tms, reply);
    var t1 := AssistantTurn(msgs[1], tms, 0, [], ExampleParse).value;
    WalkOnce(msgs, tms, ExampleParse, t1);
  }

  /** With the index advanced, the same input yields one tool-call message. */
  lemma AdvanceConvertsOnce(sys: string, reply: string)
    requires reply != "c"
    ensures MsgListToNewFormat(ExampleMsgs(sys, reply), "d", "s", 0, ExampleFind, ExampleParse).Ok?
    ensures CallsIn(MsgListToNewFormat(ExampleMsgs(sys, reply), "d", "s", 0, ExampleFind, ExampleParse).value) == 1
  {
    var msgs := ExampleMsgs(sys, reply);
    ExampleWalk(sys, reply);
    ExampleHeader(sys, reply);
    ExampleHeaderCalls();
    var h := [Said("id", JStr(SampleId("d", "s", 0))), Said("candidate_tools", JList([]))];
    CallsInAppend(h, Walk(msgs, ToolMsgs(msgs), 1, 0, [], ExampleParse).value);
  }
}

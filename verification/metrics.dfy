/** The tool-call scoring engine of `evaluate/metrics.py`: argument trimming, grouping of
    calls by tool name, the two parameter comparators, and the four round metrics built
    on a maximum-weight pairing of golden and predicted calls. */
module Metrics {
  import opened Wrappers
  import opened Text
  import opened JsonValues
  import opened Assignment

  // ================================================================ trimming

  /** `strip_strings_in_dict(d, strict)`: strings are stripped; a dict gets its keys
      stripped and, in tolerant mode only, its values trimmed recursively; everything else
      (lists included) is returned unchanged. The rebuilt dict keeps the first position of
      each stripped key and the last value written under it. */
  function StripStrings(d: Json, strict: bool): (r: Json)
    ensures d.JObj? <==> r.JObj?
    ensures d.JStr? ==> r == JStr(Strip(d.s))
    ensures !d.JObj? && !d.JStr? ==> r == d
    decreases Size(d), 0
  {
    match d
    case JObj(fs) => JObj(StripInto([], fs, strict))
    case JStr(s) => JStr(Strip(s))
    case _ => d
  }

  /** The dict comprehension: writes each stripped key with its value into `acc`, in order. */
  function StripInto(acc: seq<Field>, fs: seq<Field>, strict: bool): seq<Field>
    decreases SizeFields(fs), 1
  {
    if |fs| == 0 then acc
    else
      var v := if strict then fs[0].val else StripStrings(fs[0].val, strict);
      StripInto(Assign(acc, Strip(fs[0].key), v), fs[1..], strict)
  }

  /** The value a trimmed field contributes. */
  function TrimmedValue(v: Json, strict: bool): Json {
    if strict then v else StripStrings(v, strict)
  }

  /** Reference reading of the comprehension: the trimmed value of the last field whose
      stripped key is `k`. */
  function LastStripped(fs: seq<Field>, k: string, strict: bool): (r: Option<Json>)
    ensures r.None? <==> forall i :: 0 <= i < |fs| ==> Strip(fs[i].key) != k
  {
    if |fs| == 0 then None
    else
      var rest := LastStripped(fs[1..], k, strict);
      assert forall i :: 0 < i < |fs| ==> fs[i] == fs[1..][i - 1];
      if rest.Some? then rest
      else if Strip(fs[0].key) == k then Some(TrimmedValue(fs[0].val, strict))
      else None
  }

  /** The value under a key is that of the last field stripping to it. */
  lemma {:induction false} LastStrippedAt(fs: seq<Field>, k: string, strict: bool, i: nat)
    requires i < |fs| && Strip(fs[i].key) == k
    requires forall j :: i < j < |fs| ==> Strip(fs[j].key) != k
    ensures LastStripped(fs, k, strict) == Some(TrimmedValue(fs[i].val, strict))
  {
    var tail := fs[1..];
    if i > 0 {
      assert tail[i - 1] == fs[i];
      forall j | i - 1 < j < |tail|
        ensures Strip(tail[j].key) != k
      {
        assert tail[j] == fs[j + 1];
      }
      LastStrippedAt(tail, k, strict, i - 1);
    } else {
      forall j | 0 <= j < |tail|
        ensures Strip(tail[j].key) != k
      {
        assert tail[j] == fs[j + 1];
      }
      assert LastStripped(tail, k, strict).None?;
    }
  }

  lemma {:induction false} StripIntoLookup(acc: seq<Field>, fs: seq<Field>, strict: bool, k: string)
    ensures Lookup(StripInto(acc, fs, strict), k)
         == (if LastStripped(fs, k, strict).Some? then LastStripped(fs, k, strict) else Lookup(acc, k))
    decreases |fs|
  {
    if |fs| > 0 {
      var acc' := Assign(acc, Strip(fs[0].key), TrimmedValue(fs[0].val, strict));
      AssignLookup(acc, Strip(fs[0].key), TrimmedValue(fs[0].val, strict));
      StripIntoLookup(acc', fs[1..], strict, k);
    }
  }

  lemma {:induction false} StripIntoDistinct(acc: seq<Field>, fs: seq<Field>, strict: bool)
    requires DistinctKeys(acc)
    ensures DistinctKeys(StripInto(acc, fs, strict))
    decreases |fs|
  {
    if |fs| > 0 {
      AssignLookup(acc, Strip(fs[0].key), TrimmedValue(fs[0].val, strict));
      StripIntoDistinct(Assign(acc, Strip(fs[0].key), TrimmedValue(fs[0].val, strict)), fs[1..], strict);
    }
  }

  /** Trimming a dict: its keys are exactly the stripped keys of the input, each holding
      the (trimmed) value of the last field stripping to it, and no key repeats. In strict
      mode that value is the original one, untouched. */
  lemma StripDict(fs: seq<Field>, strict: bool, k: string)
    ensures DistinctKeys(StripStrings(JObj(fs), strict).fields)
    ensures Lookup(StripStrings(JObj(fs), strict).fields, k) == LastStripped(fs, k, strict)
    ensures HasKey(StripStrings(JObj(fs), strict).fields, k) <==> exists i :: 0 <= i < |fs| && Strip(fs[i].key) == k
  {
    StripIntoLookup([], fs, strict, k);
    StripIntoDistinct([], fs, strict);
  }

  /** A trimmed dict never repeats a key. */
  lemma StripDistinct(p: Json, strict: bool)
    ensures StripStrings(p, strict).JObj? ==> DistinctKeys(StripStrings(p, strict).fields)
  {
    if p.JObj? {
      StripIntoDistinct([], p.fields, strict);
    }
  }

  // ================================================================ grouping

  /** A well-formed call: its stripped name and trimmed arguments. */
  datatype Call = Call(name: string, args: Json)

  /** All the calls of one tool name, in their original order. */
  datatype Group = Group(name: string, args: seq<Json>)

  /** An item `convert_to_dict` keeps: a dict with both `name` and `parameters`. */
  predicate CallShaped(item: Json) {
    item.JObj? && HasKey(item.fields, "name") && HasKey(item.fields, "parameters")
  }

  /** What `convert_to_dict` makes of one item: nothing when it is not call-shaped, its
      call otherwise. Stripping the name of a kept item whose name is not a string raises
      `AttributeError`. */
  function CallOf(item: Json, strict: bool): Result<Option<Call>> {
    if !CallShaped(item) then Ok(None)
    else
      var n := GetOrNull(item.fields, "name");
      if !n.JStr? then Err(AttributeError)
      else Ok(Some(Call(Strip(n.s), StripStrings(GetOrNull(item.fields, "parameters"), strict))))
  }

  function CallsOf(strict: bool): Json -> Result<Option<Call>> {
    item => CallOf(item, strict)
  }

  /** The calls `convert_to_dict` keeps, in order. */
  function WellFormedCalls(items: seq<Json>, strict: bool): Result<seq<Call>> {
    Gather(CallsOf(strict), items)
  }

  /** The loop raises iff a call-shaped item has a non-string name; the calls kept are
      at most one per item, and all items are kept iff every item is call-shaped. */
  lemma WellFormedCallsSpec(items: seq<Json>, strict: bool)
    ensures WellFormedCalls(items, strict).Ok? <==>
              forall i :: 0 <= i < |items| && CallShaped(items[i]) ==> GetOrNull(items[i].fields, "name").JStr?
    ensures WellFormedCalls(items, strict).Ok? ==> |WellFormedCalls(items, strict).value| <= |items|
    ensures WellFormedCalls(items, strict).Ok? ==>
              (|WellFormedCalls(items, strict).value| == |items| <==> forall i :: 0 <= i < |items| ==> CallShaped(items[i]))
  {
    var f := CallsOf(strict);
    assert forall i :: 0 <= i < |items| ==> f(items[i]) == CallOf(items[i], strict);
    GatherOk(f, items);
    if WellFormedCalls(items, strict).Ok? {
      GatherFull(f, items);
    }
  }

  /** When every item is kept, the `i`-th call is the `i`-th item's stripped name with its
      trimmed `parameters`. */
  lemma WellFormedCallsAt(items: seq<Json>, strict: bool, i: nat)
    requires WellFormedCalls(items, strict).Ok? && |WellFormedCalls(items, strict).value| == |items| && i < |items|
    ensures CallShaped(items[i]) && GetOrNull(items[i].fields, "name").JStr?
    ensures WellFormedCalls(items, strict).value[i] ==
              Call(Strip(GetOrNull(items[i].fields, "name").s), StripStrings(GetOrNull(items[i].fields, "parameters"), strict))
  {
    var f := CallsOf(strict);
    GatherAt(f, items, i);
    assert f(items[i]) == CallOf(items[i], strict);
  }

  /** A kept call's arguments, when they are a dict, have distinct keys. */
  predicate ArgsDistinct(c: Call) {
    c.args.JObj? ==> DistinctKeys(c.args.fields)
  }

  /** Items holding the same entries in another order keep the same calls in another
      order. */
  lemma WellFormedCallsPermuted(items1: seq<Json>, items2: seq<Json>, strict: bool)
    requires multiset(items1) == multiset(items2)
    requires WellFormedCalls(items1, strict).Ok? && WellFormedCalls(items2, strict).Ok?
    ensures multiset(WellFormedCalls(items2, strict).value) == multiset(WellFormedCalls(items1, strict).value)
  {
    GatherKept(CallsOf(strict), items1);
    GatherKept(CallsOf(strict), items2);
    KeptPermuted(CallsOf(strict), items1, items2);
  }

  /** Every kept call whose arguments are a dict has distinct argument keys. */
  lemma CallArgsDistinct(items: seq<Json>, strict: bool)
    requires WellFormedCalls(items, strict).Ok?
    ensures forall i :: 0 <= i < |WellFormedCalls(items, strict).value| ==> ArgsDistinct(WellFormedCalls(items, strict).value[i])
  {
    var f := CallsOf(strict);
    forall i | 0 <= i < |items| && f(items[i]).Ok? && f(items[i]).value.Some?
      ensures ArgsDistinct(f(items[i]).value.value)
    {
      StripDistinct(GetOrNull(items[i].fields, "parameters"), strict);
    }
    GatherAll(f, items, ArgsDistinct);
  }

  /** The position of the group named `n`. */
  predicate HasGroup(gs: seq<Group>, n: string) {
    exists i :: 0 <= i < |gs| && gs[i].name == n
  }

  function GroupIndex(gs: seq<Group>, n: string): (i: nat)
    requires HasGroup(gs, n)
    ensures i < |gs| && gs[i].name == n && forall j :: 0 <= j < i ==> gs[j].name != n
  {
    if gs[0].name == n then 0
    else
      assert HasGroup(gs[1..], n) by {
        var i :| 0 <= i < |gs| && gs[i].name == n;
        assert gs[1..][i - 1].name == n;
      }
      GroupIndex(gs[1..], n) + 1
  }

  /** `answer_dict.get(n, [])`. */
  function ArgsOf(gs: seq<Group>, n: string): seq<Json> {
    if HasGroup(gs, n) then gs[GroupIndex(gs, n)].args else []
  }

  predicate DistinctNames(gs: seq<Group>) {
    forall i, j :: 0 <= i < j < |gs| ==> gs[i].name != gs[j].name
  }

  /** Appends a call's arguments to the group of its name, opening one when needed. */
  function AddCall(gs: seq<Group>, c: Call): seq<Group> {
    if HasGroup(gs, c.name) then
      var i := GroupIndex(gs, c.name);
      gs[i := Group(c.name, gs[i].args + [c.args])]
    else gs + [Group(c.name, [c.args])]
  }

  /** `convert_to_dict` after trimming: the groups, in order of first appearance. */
  function Grouped(calls: seq<Call>): seq<Group> {
    if |calls| == 0 then [] else AddCall(Grouped(calls[..|calls| - 1]), calls[|calls| - 1])
  }

  /** Reference reading of one group: the arguments of the calls named `n`, in order. */
  function Named(calls: seq<Call>, n: string): seq<Json> {
    if |calls| == 0 then []
    else Named(calls[..|calls| - 1], n) + (if calls[|calls| - 1].name == n then [calls[|calls| - 1].args] else [])
  }

  function TotalArgs(gs: seq<Group>): nat {
    if |gs| == 0 then 0 else |gs[0].args| + TotalArgs(gs[1..])
  }

  lemma {:induction false} TotalArgsUpdate(gs: seq<Group>, i: nat, g: Group)
    requires i < |gs|
    ensures TotalArgs(gs[i := g]) == TotalArgs(gs) - |gs[i].args| + |g.args|
  {
    if i > 0 {
      TotalArgsUpdate(gs[1..], i - 1, g);
      assert gs[i := g][1..] == gs[1..][i - 1 := g];
    }
  }

  lemma {:induction false} TotalArgsAppend(gs: seq<Group>, g: Group)
    ensures TotalArgs(gs + [g]) == TotalArgs(gs) + |g.args|
  {
    if |gs| > 0 {
      TotalArgsAppend(gs[1..], g);
      assert (gs + [g])[1..] == gs[1..] + [g];
    }
  }

  lemma AddCallSpec(gs: seq<Group>, c: Call)
    requires DistinctNames(gs)
    ensures DistinctNames(AddCall(gs, c))
    ensures forall n :: HasGroup(AddCall(gs, c), n) <==> HasGroup(gs, n) || n == c.name
    ensures forall n :: ArgsOf(AddCall(gs, c), n) == ArgsOf(gs, n) + (if n == c.name then [c.args] else [])
    ensures TotalArgs(AddCall(gs, c)) == TotalArgs(gs) + 1
  {
    AddCallDistinct(gs, c);
    AddCallNames(gs, c);
    AddCallArgs(gs, c);
  }

  /** Appending a call keeps the names distinct and adds one argument list in all. */
  lemma AddCallDistinct(gs: seq<Group>, c: Call)
    requires DistinctNames(gs)
    ensures DistinctNames(AddCall(gs, c))
    ensures TotalArgs(AddCall(gs, c)) == TotalArgs(gs) + 1
  {
    if HasGroup(gs, c.name) {
      var i := GroupIndex(gs, c.name);
      TotalArgsUpdate(gs, i, Group(c.name, gs[i].args + [c.args]));
    } else {
      TotalArgsAppend(gs, Group(c.name, [c.args]));
    }
  }

  /** Appending a call opens a group only for a new name. */
  lemma AddCallNames(gs: seq<Group>, c: Call)
    ensures forall n :: HasGroup(AddCall(gs, c), n) <==> HasGroup(gs, n) || n == c.name
  {
    var r := AddCall(gs, c);
    forall n ensures HasGroup(r, n) <==> HasGroup(gs, n) || n == c.name {
      if HasGroup(gs, n) {
        var j :| 0 <= j < |gs| && gs[j].name == n;
        assert r[j].name == n;
      }
      if n == c.name && !HasGroup(gs, c.name) {
        assert r[|gs|].name == n;
      }
      if HasGroup(r, n) {
        var j :| 0 <= j < |r| && r[j].name == n;
        if j < |gs| {
          assert gs[j].name == n || j == GroupIndex(gs, c.name);
        }
      }
    }
  }

  /** Appending a call extends exactly its name's argument list by the call's arguments. */
  lemma AddCallArgs(gs: seq<Group>, c: Call)
    ensures forall n :: ArgsOf(AddCall(gs, c), n) == ArgsOf(gs, n) + (if n == c.name then [c.args] else [])
  {
    if HasGroup(gs, c.name) {
      AddCallArgsUpdate(gs, c);
    } else {
      AddCallArgsAppend(gs, c);
    }
  }

  lemma AddCallArgsUpdate(gs: seq<Group>, c: Call)
    requires HasGroup(gs, c.name)
    ensures forall n :: ArgsOf(AddCall(gs, c), n) == ArgsOf(gs, n) + (if n == c.name then [c.args] else [])
  {
    var r := AddCall(gs, c);
    AddCallNames(gs, c);
    forall n ensures ArgsOf(r, n) == ArgsOf(gs, n) + (if n == c.name then [c.args] else []) {
      if HasGroup(gs, n) {
        var j := GroupIndex(gs, n);
        assert GroupIndex(r, n) == j by {
          var k := GroupIndex(r, n);
          assert r[j].name == n;
          assert gs[k].name == n;
        }
      }
    }
  }

  lemma AddCallArgsAppend(gs: seq<Group>, c: Call)
    requires !HasGroup(gs, c.name)
    ensures forall n :: ArgsOf(AddCall(gs, c), n) == ArgsOf(gs, n) + (if n == c.name then [c.args] else [])
  {
    var r := AddCall(gs, c);
    AddCallNames(gs, c);
    forall n ensures ArgsOf(r, n) == ArgsOf(gs, n) + (if n == c.name then [c.args] else []) {
      if HasGroup(gs, n) {
        var j := GroupIndex(gs, n);
        assert r[j].name == n;
        assert GroupIndex(r, n) == j by {
          var k := GroupIndex(r, n);
          assert k != |gs|;
          assert gs[k].name == n;
        }
      } else if n == c.name {
        assert r[|gs|].name == n;
        assert GroupIndex(r, n) == |gs|;
      }
    }
  }

  /** A name has calls exactly when some call carries it. */
  lemma {:induction false} NamedEmpty(calls: seq<Call>, n: string)
    ensures Named(calls, n) == [] <==> forall i :: 0 <= i < |calls| ==> calls[i].name != n
  {
    if |calls| > 0 {
      NamedEmpty(calls[..|calls| - 1], n);
      assert forall i :: 0 <= i < |calls| - 1 ==> calls[..|calls| - 1][i] == calls[i];
    }
  }

  /** Every argument in a name's list comes from a call of that name. */
  lemma {:induction false} NamedMembers(calls: seq<Call>, n: string, i: nat)
    requires i < |Named(calls, n)|
    ensures exists j :: 0 <= j < |calls| && calls[j].name == n && calls[j].args == Named(calls, n)[i]
  {
    var init := calls[..|calls| - 1];
    if i < |Named(init, n)| {
      NamedMembers(init, n, i);
      var j :| 0 <= j < |init| && init[j].name == n && init[j].args == Named(init, n)[i];
      assert calls[j] == init[j];
    } else {
      assert calls[|calls| - 1].name == n;
    }
  }

  /** A name's list holds each argument value as often as the calls hold a call of that
      name with it. */
  lemma {:induction false} NamedCount(calls: seq<Call>, n: string, v: Json)
    ensures multiset(Named(calls, n))[v] == multiset(calls)[Call(n, v)]
  {
    if |calls| > 0 {
      var init, last := calls[..|calls| - 1], calls[|calls| - 1];
      NamedCount(init, n, v);
      assert calls == init + [last];
      assert multiset(calls)[Call(n, v)] == multiset(init)[Call(n, v)] + (if last == Call(n, v) then 1 else 0);
      var tail := if last.name == n then [last.args] else [];
      assert Named(calls, n) == Named(init, n) + tail;
    }
  }

  /** Calls holding the same calls in another order give every name the same arguments,
      in some order. */
  lemma NamedPermuted(calls1: seq<Call>, calls2: seq<Call>, n: string)
    requires multiset(calls1) == multiset(calls2)
    ensures multiset(Named(calls1, n)) == multiset(Named(calls2, n))
  {
    forall v
      ensures multiset(Named(calls1, n))[v] == multiset(Named(calls2, n))[v]
    {
      NamedCount(calls1, n, v);
      NamedCount(calls2, n, v);
    }
  }

  /** In distinct-named groups, a group's own name finds it. */
  lemma ArgsOfOwnName(gs: seq<Group>, k: nat)
    requires DistinctNames(gs) && k < |gs|
    ensures HasGroup(gs, gs[k].name) && ArgsOf(gs, gs[k].name) == gs[k].args
  {
    assert HasGroup(gs, gs[k].name);
    var i := GroupIndex(gs, gs[k].name);
    assert i == k;
  }

  /** Grouping loses and invents nothing: the group names are distinct and are exactly
      the names called, each group holds the arguments of the calls of its name in their
      original order, and every call is in exactly one group. */
  lemma {:induction false} GroupedSpec(calls: seq<Call>)
    ensures DistinctNames(Grouped(calls))
    ensures forall n :: HasGroup(Grouped(calls), n) <==> exists i :: 0 <= i < |calls| && calls[i].name == n
    ensures forall n :: ArgsOf(Grouped(calls), n) == Named(calls, n)
    ensures TotalArgs(Grouped(calls)) == |calls|
  {
    if |calls| > 0 {
      var init := calls[..|calls| - 1];
      var c := calls[|calls| - 1];
      GroupedSpec(init);
      AddCallSpec(Grouped(init), c);
      forall n ensures HasGroup(Grouped(calls), n) <==> exists i :: 0 <= i < |calls| && calls[i].name == n {
        if exists i :: 0 <= i < |calls| && calls[i].name == n {
          var i :| 0 <= i < |calls| && calls[i].name == n;
          if i < |calls| - 1 {
            assert init[i].name == n;
          }
        }
        if HasGroup(Grouped(init), n) {
          var i :| 0 <= i < |init| && init[i].name == n;
          assert calls[i].name == n;
        }
      }
    }
  }
}

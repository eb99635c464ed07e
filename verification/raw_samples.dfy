/** Samples as the dataset tools read them from disk: arbitrary JSON values, normalised to
    a list of message dicts. The analyzer and the response filler share these helpers. */
module RawSamples {
  import opened Wrappers
  import opened JsonValues

  /** `json.loads` on a string: the parsed value, or `None` when the text is not JSON.
      Parsing itself is not modelled; every caller receives it as a parameter. */
  type Parser = string -> Option<Json>

  /** `d.get(k, default)` on a dict. */
  function GetOr(fs: seq<Field>, k: string, default: Json): (r: Json)
    ensures HasKey(fs, k) ==> Lookup(fs, k) == Some(r)
    ensures !HasKey(fs, k) ==> r == default
  {
    match Lookup(fs, k)
    case Some(v) => v
    case None => default
  }

  /** Every message is a dict, so `msg.get(...)` is defined on all of them. */
  predicate AllObjs(ms: seq<Json>) {
    forall i :: 0 <= i < |ms| ==> ms[i].JObj?
  }

  /** `msg.get("role")`. */
  function Role(m: Json): Json
    requires m.JObj?
  {
    GetOrNull(m.fields, "role")
  }

  /** `msg.get("content")`. */
  function Content(m: Json): Json
    requires m.JObj?
  {
    GetOrNull(m.fields, "content")
  }

  /** The message dict `{"role": role, "content": content}`. */
  function Msg(role: string, content: Json): (r: Json)
    ensures r.JObj? && Role(r) == JStr(role) && Content(r) == content
  {
    var fs := [Field("role", JStr(role)), Field("content", content)];
    assert fs[0].key == "role" && fs[1].key == "content" && |"role"| != |"content"|;
    FirstKeyIndexUnique(fs, "role", 0);
    FirstKeyIndexUnique(fs, "content", 1);
    JObj(fs)
  }

  predicate HasRole(m: Json, role: string)
    requires m.JObj?
  {
    Role(m) == JStr(role)
  }

  /** `msg.get("role") in ["tool_call", "tool_call_ground_truth"]`. */
  predicate IsCall(m: Json)
    requires m.JObj?
  {
    HasRole(m, "tool_call") || HasRole(m, "tool_call_ground_truth")
  }

  /** A dict carrying a `role` key. */
  predicate RoleBearing(j: Json) {
    j.JObj? && HasKey(j.fields, "role")
  }

  /** The role-bearing values of a dict, in order. */
  function RoleValues(fs: seq<Field>): (r: seq<Json>)
    ensures |r| <= |fs|
    ensures forall k :: 0 <= k < |r| ==> RoleBearing(r[k])
    ensures forall i :: 0 <= i < |fs| && RoleBearing(fs[i].val) ==> fs[i].val in r
  {
    if |fs| == 0 then []
    else
      assert forall i :: 0 < i < |fs| ==> fs[i] == fs[1..][i - 1];
      (if RoleBearing(fs[0].val) then [fs[0].val] else []) + RoleValues(fs[1..])
  }

  /** The role-bearing values keep the field order: those of two runs of fields are those
      of the first run followed by those of the second. */
  lemma {:induction false} RoleValuesAppend(a: seq<Field>, b: seq<Field>)
    ensures RoleValues(a + b) == RoleValues(a) + RoleValues(b)
  {
    if |a| == 0 {
      assert a + b == b;
    } else {
      assert (a + b)[0] == a[0] && (a + b)[1..] == a[1..] + b;
      RoleValuesAppend(a[1..], b);
    }
  }

  /** A single field contributes its value exactly when the value bears a role. */
  lemma RoleValuesSingle(f: Field)
    ensures RoleValues([f]) == if RoleBearing(f.val) then [f.val] else []
  {
    assert [f][1..] == [];
  }

  /** The sample a stored record stands for: a list is the sample itself, a dict with
      `messages` holds it under that key, any other dict contributes its role-bearing
      values, and anything else is the empty sample. */
  function NormalizeSample(data: Json): (r: Json)
    ensures data.JList? ==> r == data
    ensures data.JObj? && HasKey(data.fields, "messages") ==> Lookup(data.fields, "messages") == Some(r)
    ensures data.JObj? && !HasKey(data.fields, "messages") ==>
              r.JList? && |r.elems| <= |data.fields| && forall k :: 0 <= k < |r.elems| ==> RoleBearing(r.elems[k])
    ensures !data.JList? && !data.JObj? ==> r == JList([])
  {
    match data
    case JList(_) => data
    case JObj(fs) => if HasKey(fs, "messages") then GetOrNull(fs, "messages") else JList(RoleValues(fs))
    case _ => JList([])
  }

  /** Normalising a normalised list changes nothing, and a dict without `messages` yields
      only message dicts. */
  lemma NormalizeStable(data: Json)
    requires !(data.JObj? && HasKey(data.fields, "messages"))
    ensures NormalizeSample(data).JList?
    ensures NormalizeSample(NormalizeSample(data)) == NormalizeSample(data)
    ensures AllObjs(NormalizeSample(data).elems) || data.JList?
  {
  }
}

/** The assignment step of the scorer: golden calls (rows) of one tool name are paired
    with predicted calls (columns) of the same name so that the total weight of the pairs
    is as large as possible, each row and each column used at most once, and exactly
    min(g, p) pairs are formed.

    The repository obtains such a pairing from a minimum-cost assignment on the negated
    weights, padded to a square with zero-cost dummy rows or columns; the real pairs of a
    padded square assignment are exactly min(g, p) and maximise the weight. Here the
    pairing is found by an exhaustive search whose optimality is proved. */
module Assignment {
  import opened Wrappers

  /** Row `i` of a pairing is paired with column `m[i].value`, or with nothing. */
  type Pairing = seq<Option<nat>>

  /** The weight of cell (i, c), with 0 outside the matrix. */
  function Cell(w: seq<seq<nat>>, i: nat, c: nat): nat {
    if i < |w| && c < |w[i]| then w[i][c] else 0
  }

  /** The total weight of the pairs, the first entry of `m` being row `row`. */
  function Weight(w: seq<seq<nat>>, row: nat, m: Pairing): nat
    decreases |m|
  {
    if |m| == 0 then 0
    else (if m[0].Some? then Cell(w, row, m[0].value) else 0) + Weight(w, row + 1, m[1..])
  }

  /** The number of rows that are paired. */
  function Assigned(m: Pairing): (n: nat)
    ensures n <= |m|
  {
    if |m| == 0 then 0 else (if m[0].Some? then 1 else 0) + Assigned(m[1..])
  }

  /** Every column is below `p`, outside `used`, and taken by at most one row. */
  predicate Fits(m: Pairing, p: nat, used: set<nat>)
    decreases |m|
  {
    |m| == 0 ||
    match m[0]
    case None => Fits(m[1..], p, used)
    case Some(c) => c < p && c !in used && Fits(m[1..], p, used + {c})
  }

  /** The same condition, stated without recursion. */
  predicate InjectiveBelow(m: Pairing, p: nat, used: set<nat>) {
    && (forall k :: 0 <= k < |m| && m[k].Some? ==> m[k].value < p && m[k].value !in used)
    && (forall k, l :: 0 <= k < l < |m| && m[k].Some? && m[l].Some? ==> m[k].value != m[l].value)
  }

  lemma {:induction false} FitsIsInjective(m: Pairing, p: nat, used: set<nat>)
    ensures Fits(m, p, used) <==> InjectiveBelow(m, p, used)
    decreases |m|
  {
    if |m| > 0 {
      var used' := if m[0].Some? then used + {m[0].value} else used;
      FitsIsInjective(m[1..], p, used');
      assert forall k :: 0 < k < |m| ==> m[k] == m[1..][k - 1];
      if InjectiveBelow(m, p, used) {
        assert InjectiveBelow(m[1..], p, used');
      }
    }
  }

  /** The columns below `p` not yet used. */
  function Free(p: nat, used: set<nat>): set<nat> {
    set c | 0 <= c < p && c !in used
  }

  lemma {:induction false} FreeOfNothing(p: nat)
    ensures |Free(p, {})| == p
  {
    if p > 0 {
      FreeOfNothing(p - 1);
      assert Free(p, {}) == Free(p - 1, {}) + {p - 1};
    }
  }

  lemma FreeRemove(p: nat, used: set<nat>, c: nat)
    requires c < p && c !in used
    ensures |Free(p, used + {c})| == |Free(p, used)| - 1
  {
    assert Free(p, used + {c}) == Free(p, used) - {c};
  }

  /** The heaviest pairing of rows `row..g-1` that pairs exactly `need` of them with columns
      below `p` outside `used`. Such a pairing exists because enough rows and free columns
      remain. */
  function Best(w: seq<seq<nat>>, g: nat, p: nat, row: nat, used: set<nat>, need: nat): (r: Pairing)
    requires row <= g && need <= g - row && need <= |Free(p, used)|
    ensures |r| == g - row && Fits(r, p, used) && Assigned(r) == need
    decreases g - row, p + 1
  {
    if row == g then []
    else
      var skip := if need < g - row then Some([None] + Best(w, g, p, row + 1, used, need)) else None;
      var take := if need > 0 then BestCol(w, g, p, row, used, need, 0) else None;
      assert take.None? ==> need == 0;
      if take.None? then
        assert skip.value[1..] == Best(w, g, p, row + 1, used, need);
        skip.value
      else if skip.None? || Weight(w, row, take.value) >= Weight(w, row, skip.value) then take.value
      else
        assert skip.value[1..] == Best(w, g, p, row + 1, used, need);
        skip.value
  }

  /** The heaviest pairing of rows `row..g-1` that pairs row `row` with a free column at or
      after `col`, or `None` when there is no such column. */
  function BestCol(w: seq<seq<nat>>, g: nat, p: nat, row: nat, used: set<nat>, need: nat, col: nat)
    : (r: Option<Pairing>)
    requires row < g && 0 < need <= g - row && need <= |Free(p, used)| && col <= p
    ensures r.None? <==> forall c :: col <= c < p ==> c in used
    ensures r.Some? ==> |r.value| == g - row && Fits(r.value, p, used) && Assigned(r.value) == need
    decreases g - row, p - col
  {
    if col == p then None
    else
      var rest := BestCol(w, g, p, row, used, need, col + 1);
      if col in used then rest
      else
        FreeRemove(p, used, col);
        var tail := Best(w, g, p, row + 1, used + {col}, need - 1);
        var here := [Some(col)] + tail;
        assert here[1..] == tail;
        if rest.None? || Weight(w, row, here) >= Weight(w, row, rest.value) then Some(here) else rest
  }

  lemma {:induction false} BestIsOptimal(w: seq<seq<nat>>, g: nat, p: nat, row: nat, used: set<nat>, need: nat, m: Pairing)
    requires row <= g && need <= g - row && need <= |Free(p, used)|
    requires |m| == g - row && Fits(m, p, used) && Assigned(m) == need
    ensures Weight(w, row, m) <= Weight(w, row, Best(w, g, p, row, used, need))
    decreases g - row, p + 1
  {
    if row < g {
      if m[0].None? {
        BestIsOptimal(w, g, p, row + 1, used, need, m[1..]);
        var s := [None] + Best(w, g, p, row + 1, used, need);
        assert s[1..] == Best(w, g, p, row + 1, used, need);
      } else {
        BestColIsOptimal(w, g, p, row, used, need, 0, m);
      }
    }
  }

  lemma {:induction false} BestColIsOptimal(w: seq<seq<nat>>, g: nat, p: nat, row: nat, used: set<nat>, need: nat, col: nat, m: Pairing)
    requires row < g && 0 < need <= g - row && need <= |Free(p, used)| && col <= p
    requires |m| == g - row && Fits(m, p, used) && Assigned(m) == need
    requires m[0].Some? && col <= m[0].value
    ensures BestCol(w, g, p, row, used, need, col).Some?
    ensures Weight(w, row, m) <= Weight(w, row, BestCol(w, g, p, row, used, need, col).value)
    decreases g - row, p - col
  {
    var c := m[0].value;
    if c == col {
      FreeRemove(p, used, col);
      BestIsOptimal(w, g, p, row + 1, used + {col}, need - 1, m[1..]);
      var here := [Some(col)] + Best(w, g, p, row + 1, used + {col}, need - 1);
      assert here[1..] == Best(w, g, p, row + 1, used + {col}, need - 1);
    } else {
      BestColIsOptimal(w, g, p, row, used, need, col + 1, m);
    }
  }

  /** A pairing of `g` rows with `p` columns: injective, and of size min(g, p). */
  predicate IsPairing(m: Pairing, g: nat, p: nat) {
    |m| == g && Fits(m, p, {}) && Assigned(m) == Min(g, p)
  }

  /** The pairing the scorer uses. */
  function BestPairing(w: seq<seq<nat>>, g: nat, p: nat): (m: Pairing)
    ensures IsPairing(m, g, p)
  {
    FreeOfNothing(p);
    Best(w, g, p, 0, {}, Min(g, p))
  }

  /** No pairing of size min(g, p) weighs more than the one chosen. */
  lemma BestPairingIsOptimal(w: seq<seq<nat>>, g: nat, p: nat, m: Pairing)
    requires IsPairing(m, g, p)
    ensures Weight(w, 0, m) <= Weight(w, 0, BestPairing(w, g, p))
  {
    FreeOfNothing(p);
    BestIsOptimal(w, g, p, 0, {}, Min(g, p), m);
  }

  // ---------------------------------------------------------------- permutations

  /** Row `i` is paired with a column holding `a[i]`, and no column is taken twice. */
  predicate Matching<T(==)>(m: Pairing, a: seq<T>, b: seq<T>) {
    && |m| == |a|
    && (forall i :: 0 <= i < |a| ==> m[i].Some? && m[i].value < |b| && b[m[i].value] == a[i])
    && (forall k, l :: 0 <= k < l < |m| && m[k].Some? && m[l].Some? ==> m[k].value != m[l].value)
  }

  /** The columns of `m` from `j` on moved up by one, leaving column `j` free. */
  function Skip(m: Pairing, j: nat): (r: Pairing)
    ensures |r| == |m|
  {
    seq(|m|, k requires 0 <= k < |m| => if m[k].Some? then Some(if m[k].value < j then m[k].value else m[k].value + 1) else None)
  }

  /** Two lists holding the same elements, counted with multiplicity, can be matched
      entry for entry. */
  lemma {:induction false} MatchingOf<T>(a: seq<T>, b: seq<T>) returns (m: Pairing)
    requires multiset(a) == multiset(b)
    ensures Matching(m, a, b)
    decreases |a|
  {
    if |a| == 0 {
      m := [];
    } else {
      assert a[0] in multiset(b);
      var j :| 0 <= j < |b| && b[j] == a[0];
      RemoveMatching(a, b, j);
      var b' := b[..j] + b[j + 1..];
      var m' := MatchingOf(a[1..], b');
      m := [Some(j)] + Skip(m', j);
      forall i | 0 < i < |a|
        ensures m[i].Some? && m[i].value < |b| && b[m[i].value] == a[i]
      {
        var c := m'[i - 1].value;
        assert b'[c] == a[1..][i - 1] == a[i];
        if c < j {
          assert b'[c] == b[c];
        } else {
          assert b'[c] == b[c + 1];
        }
      }
    }
  }

  lemma {:induction false} AssignedAll(m: Pairing)
    requires forall k :: 0 <= k < |m| ==> m[k].Some?
    ensures Assigned(m) == |m|
  {
    if |m| > 0 {
      AssignedAll(m[1..]);
    }
  }

  /** Two lists holding the same elements in any order have a pairing of the size the
      scorer uses that pairs every row with an equal column. */
  lemma PermutationPairing<T>(a: seq<T>, b: seq<T>) returns (m: Pairing)
    requires multiset(a) == multiset(b)
    ensures IsPairing(m, |a|, |b|)
    ensures forall i :: 0 <= i < |a| ==> m[i].Some? && m[i].value < |b| && b[m[i].value] == a[i]
  {
    m := MatchingOf(a, b);
    assert |a| == |multiset(a)| == |multiset(b)| == |b|;
    FitsIsInjective(m, |b|, {});
    AssignedAll(m);
  }
}

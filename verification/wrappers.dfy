/** Failure-compatible wrappers shared by every module of the model.

    The modelled code signals errors by raising Python exceptions. An exception that
    the code does not catch becomes `Err(e)` here, with `e` naming the exception class,
    so that every error path stays visible in the contracts. */
module Wrappers {

  datatype Option<+T> = None | Some(value: T)

  /** The Python exception classes the modelled code can raise. */
  datatype PyError =
    | KeyError
    | TypeError
    | AttributeError
    | NameError
    | IndexError
    | ValueError
    | ZeroDivisionError
    | AssertionError

  /** The outcome of a Python call: a value, or the exception it raised. */
  datatype Result<+T> = Ok(value: T) | Err(error: PyError) {

    predicate IsFailure() {
      Err?
    }

    function PropagateFailure<U>(): Result<U>
      requires Err?
    {
      Err(error)
    }

    function Extract(): T
      requires Ok?
    {
      value
    }
  }

  function Min(a: nat, b: nat): nat {
    if a <= b then a else b
  }

  /** A Python loop that converts each element in turn and stops at the first element
      whose conversion raises. */
  function MapAll<T, U>(f: T -> Result<U>, xs: seq<T>): Result<seq<U>> {
    if |xs| == 0 then Ok([])
    else match f(xs[0])
      case Err(e) => Err(e)
      case Ok(y) =>
        match MapAll(f, xs[1..])
        case Err(e) => Err(e)
        case Ok(ys) => Ok([y] + ys)
  }

  /** The loop completes iff every element converts. */
  lemma {:induction false} MapAllOk<T, U>(f: T -> Result<U>, xs: seq<T>)
    ensures MapAll(f, xs).Ok? <==> forall i :: 0 <= i < |xs| ==> f(xs[i]).Ok?
  {
    if |xs| > 0 {
      MapAllOk(f, xs[1..]);
      assert forall i :: 0 < i < |xs| ==> xs[1..][i - 1] == xs[i];
    }
  }

  /** A completed loop yields one result per element. */
  lemma {:induction false} MapAllLength<T, U>(f: T -> Result<U>, xs: seq<T>)
    ensures MapAll(f, xs).Ok? ==> |MapAll(f, xs).value| == |xs|
  {
    if |xs| > 0 {
      MapAllLength(f, xs[1..]);
    }
  }

  /** The result at position `i` is the conversion of `xs[i]`. */
  lemma {:induction false} MapAllAt<T, U>(f: T -> Result<U>, xs: seq<T>, i: nat)
    requires MapAll(f, xs).Ok? && i < |xs|
    ensures i < |MapAll(f, xs).value| && f(xs[i]) == Ok(MapAll(f, xs).value[i])
    decreases i
  {
    MapAllLength(f, xs);
    if i > 0 {
      MapAllAt(f, xs[1..], i - 1);
      assert xs[1..][i - 1] == xs[i];
    }
  }

  /** A failed loop raises the error of the first element that does not convert. */
  lemma {:induction false} MapAllError<T, U>(f: T -> Result<U>, xs: seq<T>)
    ensures MapAll(f, xs).Err? ==>
              exists i :: 0 <= i < |xs| && f(xs[i]).Err? && MapAll(f, xs).error == f(xs[i]).error &&
                          forall j :: 0 <= j < i ==> f(xs[j]).Ok?
  {
    if |xs| > 0 && MapAll(f, xs).Err? && f(xs[0]).Ok? {
      MapAllError(f, xs[1..]);
      var i :| 0 <= i < |xs[1..]| && f(xs[1..][i]).Err? && MapAll(f, xs[1..]).error == f(xs[1..][i]).error &&
               forall j :: 0 <= j < i ==> f(xs[1..][j]).Ok?;
      assert xs[1..][i] == xs[i + 1];
      assert forall j :: 0 < j < i + 1 ==> xs[1..][j - 1] == xs[j];
    }
  }

  /** Converts every element in order, keeping the values of the conversions that give one;
      stops at the first error. */
  function Gather<T, U>(f: T -> Result<Option<U>>, xs: seq<T>): Result<seq<U>> {
    if |xs| == 0 then Ok([])
    else match f(xs[0])
      case Err(e) => Err(e)
      case Ok(y) =>
        match Gather(f, xs[1..])
        case Err(e) => Err(e)
        case Ok(ys) => Ok((if y.Some? then [y.value] else []) + ys)
  }

  /** The loop completes iff every element converts, and keeps at most one value each. */
  lemma {:induction false} GatherOk<T, U>(f: T -> Result<Option<U>>, xs: seq<T>)
    ensures Gather(f, xs).Ok? <==> forall i :: 0 <= i < |xs| ==> f(xs[i]).Ok?
    ensures Gather(f, xs).Ok? ==> |Gather(f, xs).value| <= |xs|
  {
    if |xs| > 0 {
      GatherOk(f, xs[1..]);
      assert forall i :: 0 < i < |xs| ==> xs[1..][i - 1] == xs[i];
    }
  }

  /** A completed loop keeps one value per element iff every element gives one. */
  lemma {:induction false} GatherFull<T, U>(f: T -> Result<Option<U>>, xs: seq<T>)
    requires Gather(f, xs).Ok?
    ensures |Gather(f, xs).value| == |xs| <==> forall i :: 0 <= i < |xs| ==> f(xs[i]).Ok? && f(xs[i]).value.Some?
  {
    if |xs| > 0 {
      GatherOk(f, xs[1..]);
      GatherFull(f, xs[1..]);
      assert forall i :: 0 < i < |xs| ==> xs[1..][i - 1] == xs[i];
    }
  }

  /** With one value per element, the value at position `i` is the one `xs[i]` gives. */
  lemma {:induction false} GatherAt<T, U>(f: T -> Result<Option<U>>, xs: seq<T>, i: nat)
    requires Gather(f, xs).Ok? && |Gather(f, xs).value| == |xs| && i < |xs|
    ensures f(xs[i]) == Ok(Some(Gather(f, xs).value[i]))
    decreases i
  {
    GatherOk(f, xs[1..]);
    if f(xs[0]).value.Some? && i > 0 {
      GatherAt(f, xs[1..], i - 1);
      assert xs[1..][i - 1] == xs[i];
    }
  }

  /** A property every value kept by the loop has, when every conversion that gives a
      value gives one with it. */
  lemma {:induction false} GatherAll<T, U>(f: T -> Result<Option<U>>, xs: seq<T>, P: U -> bool)
    requires forall i :: 0 <= i < |xs| && f(xs[i]).Ok? && f(xs[i]).value.Some? ==> P(f(xs[i]).value.value)
    ensures Gather(f, xs).Ok? ==> forall j :: 0 <= j < |Gather(f, xs).value| ==> P(Gather(f, xs).value[j])
  {
    if |xs| > 0 && Gather(f, xs).Ok? {
      assert forall i :: 0 < i < |xs| ==> xs[1..][i - 1] == xs[i];
      GatherAll(f, xs[1..], P);
    }
  }

  /** The values the loop keeps, counted with multiplicity. */
  function Kept<T, U>(f: T -> Result<Option<U>>, xs: seq<T>): multiset<U> {
    if |xs| == 0 then multiset{} else KeptOne(f, xs[0]) + Kept(f, xs[1..])
  }

  /** The value one element gives, if any. */
  function KeptOne<T, U>(f: T -> Result<Option<U>>, x: T): multiset<U> {
    match f(x) case Ok(Some(y)) => multiset{y} case _ => multiset{}
  }

  /** A completed loop keeps exactly `Kept`. */
  lemma {:induction false} GatherKept<T, U>(f: T -> Result<Option<U>>, xs: seq<T>)
    requires Gather(f, xs).Ok?
    ensures multiset(Gather(f, xs).value) == Kept(f, xs)
  {
    if |xs| > 0 {
      GatherKept(f, xs[1..]);
    }
  }

  lemma {:induction false} KeptAppend<T, U>(f: T -> Result<Option<U>>, a: seq<T>, b: seq<T>)
    ensures Kept(f, a + b) == Kept(f, a) + Kept(f, b)
  {
    if |a| > 0 {
      assert (a + b)[0] == a[0] && (a + b)[1..] == a[1..] + b;
      KeptAppend(f, a[1..], b);
    } else {
      assert a + b == b;
    }
  }

  /** Taking out the element at `j` leaves the others. */
  lemma RemoveAt<T>(b: seq<T>, j: nat)
    requires j < |b|
    ensures b == b[..j] + [b[j]] + b[j + 1..]
    ensures multiset(b) == multiset(b[..j] + b[j + 1..]) + multiset{b[j]}
  {
    assert b == b[..j] + [b[j]] + b[j + 1..];
  }

  /** Two lists with the same elements, without the first element of one and an equal
      element of the other, still have the same elements. */
  lemma RemoveMatching<T>(xs: seq<T>, ys: seq<T>, j: nat)
    requires multiset(xs) == multiset(ys) && |xs| > 0 && j < |ys| && ys[j] == xs[0]
    ensures multiset(xs[1..]) == multiset(ys[..j] + ys[j + 1..])
  {
    RemoveAt(ys, j);
    var a, b := multiset(xs[1..]), multiset(ys[..j] + ys[j + 1..]);
    assert xs == [xs[0]] + xs[1..];
    assert a + multiset{xs[0]} == b + multiset{xs[0]};
    forall e
      ensures a[e] == b[e]
    {
      assert (a + multiset{xs[0]})[e] == (b + multiset{xs[0]})[e];
    }
  }

  /** What the loop keeps does not depend on the order of the elements. */
  lemma {:induction false} KeptPermuted<T, U>(f: T -> Result<Option<U>>, xs: seq<T>, ys: seq<T>)
    requires multiset(xs) == multiset(ys)
    ensures Kept(f, xs) == Kept(f, ys)
    decreases |xs|
  {
    if |xs| > 0 {
      assert xs[0] in multiset(ys);
      var j :| 0 <= j < |ys| && ys[j] == xs[0];
      RemoveMatching(xs, ys, j);
      var rest := ys[..j] + ys[j + 1..];
      KeptPermuted(f, xs[1..], rest);
      var a, b, c := Kept(f, ys[..j]), KeptOne(f, xs[0]), Kept(f, ys[j + 1..]);
      KeptAppend(f, ys[..j], ys[j + 1..]);
      assert Kept(f, xs) == b + (a + c);
      RemoveAt(ys, j);
      KeptAppend(f, ys[..j] + [ys[j]], ys[j + 1..]);
      KeptAppend(f, ys[..j], [ys[j]]);
      assert [ys[j]][1..] == [];
      assert Kept(f, [ys[j]]) == b;
      assert Kept(f, ys) == a + b + c;
      forall e
        ensures (b + (a + c))[e] == (a + b + c)[e]
      {
      }
    } else {
      assert |ys| == |multiset(ys)| == 0;
    }
  }
}

/** Failure-compatible wrappers shared by the whole model, and the
    all-or-nothing map that the crawler's loops compute: a PHP `foreach`
    that calls something which may throw either finishes with every result
    or stops at the first exception. */
module Basics {

  datatype Option<+T> = None | Some(value: T)

  /** Why an operation throws.  `TypeError` names the typed parameter (under
      `declare(strict_types=1)`) that received a value of the wrong type. */
  datatype Failure = TypeError(parameter: string)

  datatype Result<+T> = Ok(value: T) | Err(error: Failure) {
    predicate IsFailure() { Err? }

    function PropagateFailure<U>(): Result<U>
      requires Err?
    {
      Err(error)
    }

    function Extract(): T
      requires Ok?
    {
      value
    }
  }

  /** Applies `f` to every element in order; the first `Err` wins. */
  function MapAll<A, B>(f: A -> Result<B>, xs: seq<A>): (r: Result<seq<B>>)
    ensures r.Ok? ==> |r.value| == |xs|
    ensures xs != [] && r.Ok? ==> f(xs[|xs| - 1]) == Ok(r.value[|xs| - 1])
    decreases |xs|
  {
    if xs == [] then Ok([])
    else
      var init :- MapAll(f, xs[..|xs| - 1]);
      var last :- f(xs[|xs| - 1]);
      Ok(init + [last])
  }

  /** `f` succeeds on every element. */
  predicate AllOk<A, B>(f: A -> Result<B>, xs: seq<A>) {
    forall i :: 0 <= i < |xs| ==> f(xs[i]).Ok?
  }

  /** MapAll succeeds exactly when `f` succeeds on every element, and then
      its result lines up element by element with the input. */
  lemma {:induction false} MapAllOk<A, B>(f: A -> Result<B>, xs: seq<A>)
    ensures MapAll(f, xs).Ok? <==> AllOk(f, xs)
    ensures MapAll(f, xs).Ok? ==>
      |MapAll(f, xs).value| == |xs| &&
      forall i :: 0 <= i < |xs| ==> f(xs[i]) == Ok(MapAll(f, xs).value[i])
    decreases |xs|
  {
    if xs != [] {
      var n := |xs| - 1;
      MapAllOk(f, xs[..n]);
      assert forall i :: 0 <= i < n ==> xs[..n][i] == xs[i];
      if MapAll(f, xs[..n]).Ok? && f(xs[n]).Ok? {
        var init := MapAll(f, xs[..n]).value;
        assert MapAll(f, xs).value == init + [f(xs[n]).value];
      }
    }
  }

  /** When MapAll fails, it reports the error of the FIRST failing element. */
  lemma {:induction false} MapAllFirstError<A, B>(f: A -> Result<B>, xs: seq<A>, k: nat)
    requires k < |xs| && f(xs[k]).Err?
    requires forall i :: 0 <= i < k ==> f(xs[i]).Ok?
    ensures MapAll(f, xs) == Err(f(xs[k]).error)
    decreases |xs|
  {
    var n := |xs| - 1;
    if k < n {
      assert forall i :: 0 <= i < k ==> xs[..n][i] == xs[i];
      assert xs[..n][k] == xs[k];
      MapAllFirstError(f, xs[..n], k);
    } else {
      assert xs[..n] == xs[..k];
      MapAllOk(f, xs[..n]);
      assert forall i :: 0 <= i < n ==> xs[..n][i] == xs[i];
    }
  }

  /** One more element after a successful prefix: what a loop body does. */
  lemma MapAllSnoc<A, B>(f: A -> Result<B>, xs: seq<A>, x: A, acc: seq<B>)
    requires MapAll(f, xs) == Ok(acc)
    ensures f(x).Ok? ==> MapAll(f, xs + [x]) == Ok(acc + [f(x).value])
    ensures f(x).Err? ==> MapAll(f, xs + [x]) == Err(f(x).error)
  {
    assert (xs + [x])[..|xs|] == xs;
  }

  /** A failure on a prefix is the failure of the whole sequence. */
  lemma {:induction false} MapAllErrAppend<A, B>(f: A -> Result<B>, xs: seq<A>, ys: seq<A>)
    requires MapAll(f, xs).Err?
    ensures MapAll(f, xs + ys) == MapAll(f, xs)
    decreases |ys|
  {
    if ys == [] {
      assert xs + ys == xs;
    } else {
      var n := |ys| - 1;
      MapAllErrAppend(f, xs, ys[..n]);
      assert (xs + ys)[..|xs + ys| - 1] == xs + ys[..n];
    }
  }

  /** An element that fails after a successful prefix fails the whole
      sequence, whatever follows it. */
  lemma MapAllErrAt<A, B>(f: A -> Result<B>, xs: seq<A>, x: A, ys: seq<A>, acc: seq<B>)
    requires MapAll(f, xs) == Ok(acc) && f(x).Err?
    ensures MapAll(f, xs + [x] + ys) == Err(f(x).error)
  {
    MapAllSnoc(f, xs, x, acc);
    MapAllErrAppend(f, xs + [x], ys);
  }

  /** Iteration `i` of a loop that has produced `acc` so far: it appends
      `f`'s result, or its failure is that of the whole sequence. */
  lemma MapAllStep<A, B>(f: A -> Result<B>, xs: seq<A>, i: nat, acc: seq<B>)
    requires i < |xs| && MapAll(f, xs[..i]) == Ok(acc)
    ensures f(xs[i]).Ok? ==> MapAll(f, xs[..i + 1]) == Ok(acc + [f(xs[i]).value])
    ensures f(xs[i]).Err? ==> MapAll(f, xs) == Err(f(xs[i]).error)
  {
    if f(xs[i]).Err? {
      MapAllStepErr(f, xs, i, acc);
    } else {
      MapAllStepOk(f, xs, i, acc);
    }
  }

  lemma MapAllStepOk<A, B>(f: A -> Result<B>, xs: seq<A>, i: nat, acc: seq<B>)
    requires i < |xs| && MapAll(f, xs[..i]) == Ok(acc) && f(xs[i]).Ok?
    ensures MapAll(f, xs[..i + 1]) == Ok(acc + [f(xs[i]).value])
  {
    SplitAt(xs, i);
    MapAllSnoc(f, xs[..i], xs[i], acc);
  }

  lemma MapAllStepErr<A, B>(f: A -> Result<B>, xs: seq<A>, i: nat, acc: seq<B>)
    requires i < |xs| && MapAll(f, xs[..i]) == Ok(acc) && f(xs[i]).Err?
    ensures MapAll(f, xs) == Err(f(xs[i]).error)
  {
    SplitAt(xs, i);
    MapAllErrAt(f, xs[..i], xs[i], xs[i + 1..], acc);
  }

  /** Dropping the last element of a concatenation drops it from its second part. */
  lemma DropLastOfConcat<A>(a: seq<A>, b: seq<A>)
    requires b != []
    ensures (a + b)[..|a + b| - 1] == a + b[..|b| - 1]
    ensures (a + b)[|a + b| - 1] == b[|b| - 1]
  { }

  /** A sequence is its prefix up to `n` followed by the rest. */
  lemma Rejoin<A>(xs: seq<A>, n: nat)
    requires n <= |xs|
    ensures xs[..n] + xs[n..] == xs
  {
  }

  /** A sequence is its prefix, the element at `i` and its suffix. */
  lemma SplitAt<A>(xs: seq<A>, i: nat)
    requires i < |xs|
    ensures xs[..i] + [xs[i]] + xs[i + 1..] == xs
    ensures xs[..i + 1] == xs[..i] + [xs[i]]
  {
  }
}

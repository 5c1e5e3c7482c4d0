/** A loop that appends `f(x)` for each `x` in order and stops at the first `x` for which `f`
    raises: the shape of every `for ... : rows.append(...)` whose body can raise. */
module FailFast {
  import opened Wrappers
  import opened Seqs

  /** Where the first failing element is, or `|xs|` when none fails. */
  function FirstFailure<X, Y, E>(f: X -> Result<Y, E>, xs: seq<X>): (k: nat)
    ensures k <= |xs|
    ensures forall j :: 0 <= j < k ==> f(xs[j]).Success?
    ensures k < |xs| ==> f(xs[k]).Failure?
  {
    if xs == [] then 0
    else
      var k := FirstFailure(f, xs[..|xs| - 1]);
      if k < |xs| - 1 || f(xs[|xs| - 1]).Failure? then k else |xs|
  }

  /** The results of `f` on every element, or the first failure. */
  function MapAll<X, Y, E>(f: X -> Result<Y, E>, xs: seq<X>): Result<seq<Y>, E> {
    if xs == [] then Success([])
    else
      var init :- MapAll(f, xs[..|xs| - 1]);
      var y :- f(xs[|xs| - 1]);
      Success(init + [y])
  }

  /** `MapAll` succeeds exactly when no element fails, and then it holds one result per
      element, in order; otherwise it reports the first element's failure. */
  lemma {:induction false} MapAllFacts<X, Y, E>(f: X -> Result<Y, E>, xs: seq<X>)
    ensures MapAll(f, xs).Success? <==> FirstFailure(f, xs) == |xs|
    ensures MapAll(f, xs).Failure? ==> MapAll(f, xs).error == f(xs[FirstFailure(f, xs)]).error
    ensures MapAll(f, xs).Success? ==> |MapAll(f, xs).value| == |xs|
    ensures MapAll(f, xs).Success? ==> forall i :: 0 <= i < |xs| ==> f(xs[i]) == Success(MapAll(f, xs).value[i])
  {
    if xs != [] {
      var init := xs[..|xs| - 1];
      MapAllFacts(f, init);
      assert forall i :: 0 <= i < |init| ==> init[i] == xs[i];
    }
  }

  lemma {:induction false} MapAllAppend<X, Y, E>(f: X -> Result<Y, E>, a: seq<X>, b: seq<X>)
    ensures MapAll(f, a + b) ==
      match MapAll(f, a)
      case Failure(e) => Failure(e)
      case Success(ra) =>
        match MapAll(f, b)
        case Failure(e) => Failure(e)
        case Success(rb) => Success(ra + rb)
  {
    if b == [] {
      assert a + b == a;
      if MapAll(f, a).Success? {
        assert MapAll(f, a).value + [] == MapAll(f, a).value;
      }
    } else {
      var b' := b[..|b| - 1];
      assert (a + b)[..|a + b| - 1] == a + b';
      assert (a + b)[|a + b| - 1] == b[|b| - 1];
      MapAllAppend(f, a, b');
      var ra := MapAll(f, a);
      var rb := MapAll(f, b');
      if ra.Success? && rb.Success? && f(b[|b| - 1]).Success? {
        assert ra.value + (rb.value + [f(b[|b| - 1]).value]) == (ra.value + rb.value) + [f(b[|b| - 1]).value];
      }
    }
  }

  /** The accumulator after the loop went over `xs`, starting from `acc`. */
  function Continue<X, Y, E>(acc: seq<Y>, f: X -> Result<Y, E>, xs: seq<X>): Result<seq<Y>, E> {
    match MapAll(f, xs)
    case Success(more) => Success(acc + more)
    case Failure(e) => Failure(e)
  }

  /** Going over `a` and then over `b` is going over `a + b`. */
  lemma ContinueAppend<X, Y, E>(acc: seq<Y>, f: X -> Result<Y, E>, a: seq<X>, b: seq<X>)
    ensures Continue(acc, f, a + b) ==
      match Continue(acc, f, a)
      case Failure(e) => Failure(e)
      case Success(acc') => Continue(acc', f, b)
  {
    MapAllAppend(f, a, b);
    var ra := MapAll(f, a);
    var rb := MapAll(f, b);
    if ra.Success? && rb.Success? {
      assert acc + (ra.value + rb.value) == (acc + ra.value) + rb.value;
    }
  }

  lemma ContinueEmpty<X, Y, E>(acc: seq<Y>, f: X -> Result<Y, E>, xs: seq<X>)
    ensures Continue(acc, f, xs[..0]) == Success(acc)
  {
    assert xs[..0] == [];
    assert acc + [] == acc;
  }

  /** One more element: a success extends the accumulator, a failure is the loop's outcome. */
  lemma ContinueElement<X, Y, E>(acc0: seq<Y>, f: X -> Result<Y, E>, xs: seq<X>, i: nat, acc: seq<Y>)
    requires i < |xs|
    requires Continue(acc0, f, xs[..i]) == Success(acc)
    ensures f(xs[i]).Success? ==> Continue(acc0, f, xs[..i + 1]) == Success(acc + [f(xs[i]).value])
    ensures f(xs[i]).Failure? ==> Continue(acc0, f, xs) == Failure(f(xs[i]).error)
  {
    PrefixSnoc(xs, i);
    assert [xs[i]][..0] == [];
    ContinueAppend(acc0, f, xs[..i], [xs[i]]);
    if f(xs[i]).Success? {
      var y := f(xs[i]).value;
      assert [] + [y] == [y];
      assert MapAll(f, [xs[i]]) == Success([y]);
    } else {
      assert MapAll(f, [xs[i]]) == Failure(f(xs[i]).error);
      PrefixSplit(xs, i + 1);
      ContinueAppend(acc0, f, xs[..i + 1], xs[i + 1..]);
    }
  }

  /** One more block of elements: either the loop carries on with more results, or it has
      failed for good. */
  lemma ContinueBlock<X, Y, E>(acc0: seq<Y>, f: X -> Result<Y, E>, blocks: seq<seq<X>>, j: nat,
                               acc: seq<Y>, r: Result<seq<Y>, E>)
    requires j < |blocks|
    requires Continue(acc0, f, Concat(blocks[..j])) == Success(acc)
    requires r == Continue(acc, f, blocks[j])
    ensures r.Success? ==> Continue(acc0, f, Concat(blocks[..j + 1])) == r
    ensures r.Failure? ==> Continue(acc0, f, Concat(blocks)) == r
  {
    PrefixSnoc(blocks, j);
    ConcatSnoc(blocks[..j], blocks[j]);
    ContinueAppend(acc0, f, Concat(blocks[..j]), blocks[j]);
    if r.Failure? {
      PrefixSplit(blocks, j + 1);
      ConcatAppend(blocks[..j + 1], blocks[j + 1..]);
      ContinueAppend(acc0, f, Concat(blocks[..j + 1]), Concat(blocks[j + 1..]));
    }
  }

  lemma ContinueBlocksEmpty<X, Y, E>(acc: seq<Y>, f: X -> Result<Y, E>, blocks: seq<seq<X>>)
    ensures Continue(acc, f, Concat(blocks[..0])) == Success(acc)
  {
    assert blocks[..0] == [];
    assert acc + [] == acc;
  }
}

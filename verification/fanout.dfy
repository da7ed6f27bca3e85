/**
 Sequential fan-out: one call per region (or per account), each of which
 either returns a list or raises, gathered into one ordered list or nothing.
 */
module Fanout {
  import opened Wrappers

  /** `results += xs` for each list in turn: the lists concatenated in order.
      Every item of every list is in the result, and every item of the result
      is an item of one of the lists. */
  function Flatten<T>(xss: seq<seq<T>>): (r: seq<T>)
    ensures forall i, k :: 0 <= i < |xss| && 0 <= k < |xss[i]| ==> xss[i][k] in r
    ensures forall p :: 0 <= p < |r| ==> exists i :: 0 <= i < |xss| && r[p] in xss[i]
    decreases |xss|
  {
    if |xss| == 0 then
      []
    else
      var rest := Flatten(xss[1..]);
      assert forall i :: 1 <= i < |xss| ==> xss[i] == xss[1..][i - 1];
      xss[0] + rest
  }

  /** Flattening distributes over concatenation of the outer list. */
  lemma {:induction false} FlattenAppend<T>(a: seq<seq<T>>, b: seq<seq<T>>)
    ensures Flatten(a + b) == Flatten(a) + Flatten(b)
    decreases |a|
  {
    if |a| == 0 {
      assert a + b == b;
    } else {
      assert (a + b)[1..] == a[1..] + b;
      FlattenAppend(a[1..], b);
    }
  }

  /** Two lists flatten to their concatenation. */
  lemma FlattenPair<T>(x: seq<T>, y: seq<T>)
    ensures Flatten([x, y]) == x + y
  {
    assert [x, y][1..] == [y];
    assert [y][1..] == [];
    assert Flatten([y]) == y + [];
  }

  /** Every call returned. */
  predicate AllDone<T>(outs: seq<Outcome<T>>) {
    forall i :: 0 <= i < |outs| ==> outs[i].Done?
  }

  /** The returned values, in call order. */
  function Values<T>(outs: seq<Outcome<T>>): (r: seq<T>)
    requires AllDone(outs)
    ensures |r| == |outs|
    ensures forall i :: 0 <= i < |outs| ==> r[i] == outs[i].value
  {
    seq(|outs|, i requires 0 <= i < |outs| => outs[i].value)
  }

  /** The loop `for each call: result += call()` with no handler inside it:
      the first exception abandons everything gathered so far. */
  function Gather<T>(outs: seq<Outcome<seq<T>>>): (r: Option<seq<T>>)
    ensures r.Some? <==> AllDone(outs)
    ensures r.Some? ==> r.value == Flatten(Values(outs))
    decreases |outs|
  {
    if |outs| == 0 then
      Some([])
    else
      match outs[0]
      case Raised => None
      case Done(xs) =>
        match Gather(outs[1..])
        case None => None
        case Some(ys) =>
          assert Values(outs)[1..] == Values(outs[1..]);
          Some(xs + ys)
  }

  /** A single call that returns gives its list unchanged. */
  lemma GatherOne<T>(xs: seq<T>)
    ensures Gather([Done(xs)]) == Some(xs)
  {
    assert Values([Done(xs)]) == [xs];
    assert [xs][1..] == [];
    assert Flatten([xs]) == xs + Flatten<T>([]) == xs;
  }

  /** Gathering two batches of calls in turn is gathering their concatenation:
      results keep call order, and a failure in either batch loses both. */
  lemma GatherAppend<T>(a: seq<Outcome<seq<T>>>, b: seq<Outcome<seq<T>>>)
    ensures Gather(a + b).Some? <==> Gather(a).Some? && Gather(b).Some?
    ensures Gather(a + b).Some? ==> Gather(a + b).value == Gather(a).value + Gather(b).value
  {
    AllDoneAppend(a, b);
    if AllDone(a) && AllDone(b) {
      assert Values(a + b) == Values(a) + Values(b);
      FlattenAppend(Values(a), Values(b));
    }
  }

  lemma AllDoneAppend<T>(a: seq<Outcome<T>>, b: seq<Outcome<T>>)
    ensures AllDone(a + b) <==> AllDone(a) && AllDone(b)
  {
    if AllDone(a + b) {
      forall i | 0 <= i < |a| ensures a[i].Done? {
        assert a[i] == (a + b)[i];
      }
      forall i | 0 <= i < |b| ensures b[i].Done? {
        assert b[i] == (a + b)[|a| + i];
      }
    }
    if AllDone(a) && AllDone(b) {
      forall i | 0 <= i < |a + b| ensures (a + b)[i].Done? {
        if i < |a| {
          assert (a + b)[i] == a[i];
        } else {
          assert (a + b)[i] == b[i - |a|];
        }
      }
    }
  }
}

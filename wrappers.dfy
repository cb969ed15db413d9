/** Optional values and failure-carrying results, standing in for Swift's
    optionals and `throws`. */
module Wrappers {

  /** Swift's `T?`. */
  datatype Option<+T> = None | Some(value: T)

  /** A throwing call that returns a value: either the value or the error thrown. */
  datatype Result<+T, +E> = Success(value: T) | Failure(error: E)

  /** A throwing call that returns nothing: either it returned or it threw. */
  datatype Outcome<+E> = Pass | Fail(error: E)

  /** `compactMap { $0 }`: the present values, in order. */
  function Compact<T(!new)>(xs: seq<Option<T>>): (r: seq<T>)
    ensures |r| <= |xs|
  {
    if |xs| == 0 then []
    else (if xs[0].Some? then [xs[0].value] else []) + Compact(xs[1..])
  }

  lemma {:induction false} CompactAppend<T(!new)>(a: seq<Option<T>>, b: seq<Option<T>>)
    ensures Compact(a + b) == Compact(a) + Compact(b)
    decreases |a|
  {
    if |a| > 0 {
      assert (a + b)[1..] == a[1..] + b;
      CompactAppend(a[1..], b);
    } else {
      assert a + b == b;
    }
  }

  /** Exactly the present values survive. */
  lemma {:induction false} CompactMembers<T(!new)>(xs: seq<Option<T>>, x: T)
    ensures x in Compact(xs) <==> Some(x) in xs
    decreases |xs|
  {
    if |xs| > 0 {
      CompactMembers(xs[1..], x);
      assert xs == [xs[0]] + xs[1..];
    }
  }

  /** When every value is present nothing is dropped. */
  lemma {:induction false} CompactAllPresent<T(!new)>(xs: seq<Option<T>>)
    requires forall k :: 0 <= k < |xs| ==> xs[k].Some?
    ensures Compact(xs) == seq(|xs|, k requires 0 <= k < |xs| => xs[k].value)
    decreases |xs|
  {
    if |xs| > 0 {
      CompactAllPresent(xs[1..]);
    }
  }

  /* The unfoldings below are stated over variables so that proofs about
     literal argument lists need not unfold `Compact` on literals. */

  lemma {:induction false} CompactSix<T(!new)>(a: Option<T>, b: Option<T>, c: Option<T>, d: Option<T>, e: Option<T>, f: Option<T>)
    ensures Compact([a, b, c, d, e, f])
         == Compact([a]) + (Compact([b]) + (Compact([c]) + (Compact([d]) + (Compact([e]) + Compact([f])))))
  {
    assert [a, b, c, d, e, f] == [a] + ([b] + ([c] + ([d] + ([e] + [f]))));
    CompactAppend([e], [f]);
    CompactAppend([d], [e] + [f]);
    CompactAppend([c], [d] + ([e] + [f]));
    CompactAppend([b], [c] + ([d] + ([e] + [f])));
    CompactAppend([a], [b] + ([c] + ([d] + ([e] + [f]))));
  }

  lemma {:induction false} CompactThree<T(!new)>(a: Option<T>, b: Option<T>, c: Option<T>)
    ensures Compact([a, b, c]) == Compact([a]) + Compact([b]) + Compact([c])
  {
    assert [a, b, c] == [a] + [b] + [c];
    CompactAppend([a] + [b], [c]);
    CompactAppend([a], [b]);
  }

  lemma {:induction false} CompactOne<T(!new)>(o: Option<T>)
    ensures Compact([o]) == if o.Some? then [o.value] else []
  {
  }
}

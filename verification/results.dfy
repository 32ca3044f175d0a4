/**
 The outcome types the integrations pass around: a `Result` for every network
 call (a failed call keeps only its error message) and an `Option` for fields
 the remote service may leave out, together with the partition of a sequence
 of results into its successful values and its errors.
 */
module Results {

  /** A transport, HTTP-status or deserialisation failure; only its message is kept. */
  type NetworkError = string

  datatype Option<+T> = None | Some(value: T)

  datatype Result<+T, +E> = Ok(value: T) | Err(error: E)

  /** The values carried by the successful entries of `s`, in order. */
  function Oks<T(!new), E>(s: seq<Result<T, E>>): (r: seq<T>)
    ensures |r| <= |s|
    ensures forall v :: v in r <==> Ok(v) in s
  {
    if |s| == 0 then []
    else if s[0].Ok? then [s[0].value] + Oks(s[1..])
    else Oks(s[1..])
  }

  /** The errors carried by the failed entries of `s`, in order. */
  function Errs<T, E(!new)>(s: seq<Result<T, E>>): (r: seq<E>)
    ensures |r| <= |s|
    ensures forall e :: e in r <==> Err(e) in s
  {
    if |s| == 0 then []
    else if s[0].Err? then [s[0].error] + Errs(s[1..])
    else Errs(s[1..])
  }

  /** Every entry lands on exactly one side of the partition. */
  lemma {:induction false} OksErrsPartition<T(!new), E(!new)>(s: seq<Result<T, E>>)
    ensures |Oks(s)| + |Errs(s)| == |s|
  {
    if |s| > 0 {
      OksErrsPartition(s[1..]);
    }
  }

  /** Partitioning a concatenation partitions each part. */
  lemma {:induction false} OksConcat<T(!new), E>(a: seq<Result<T, E>>, b: seq<Result<T, E>>)
    ensures Oks(a + b) == Oks(a) + Oks(b)
  {
    if |a| == 0 {
      assert a + b == b;
    } else {
      var ab := a + b;
      assert ab[0] == a[0];
      assert ab[1..] == a[1..] + b;
      OksConcat(a[1..], b);
      if a[0].Ok? {
        assert Oks(ab) == [a[0].value] + Oks(a[1..] + b);
        assert Oks(a) == [a[0].value] + Oks(a[1..]);
      } else {
        assert Oks(ab) == Oks(a[1..] + b);
        assert Oks(a) == Oks(a[1..]);
      }
    }
  }

  /** Nothing succeeds when every entry failed. */
  lemma {:induction false} OksAllFailed<T(!new), E>(s: seq<Result<T, E>>)
    requires forall i :: 0 <= i < |s| ==> s[i].Err?
    ensures Oks(s) == []
  {
    if |s| > 0 {
      OksAllFailed(s[1..]);
    }
  }

  /** Each value occurs among the successes as often as its `Ok` occurs among the results. */
  lemma {:induction false} OksMultiset<T(!new), E>(s: seq<Result<T, E>>)
    ensures forall v :: multiset(Oks(s))[v] == multiset(s)[Ok(v)]
  {
    if |s| > 0 {
      OksMultiset(s[1..]);
      assert s == [s[0]] + s[1..];
      assert multiset(s) == multiset{s[0]} + multiset(s[1..]);
    }
  }

  /** Reordering the results reorders the successes. */
  lemma OksPermutation<T(!new), E>(s: seq<Result<T, E>>, t: seq<Result<T, E>>)
    requires multiset(s) == multiset(t)
    ensures multiset(Oks(s)) == multiset(Oks(t))
  {
    OksMultiset(s);
    OksMultiset(t);
    assert forall v :: multiset(Oks(s))[v] == multiset(Oks(t))[v];
  }
}
